/** The horizontal pod autoscaler (pkg/controller/podautoscaler/horizonal.go), with real numbers for its ratios. */
module Autoscaler {
  import opened Wrappers
  import Int32

  type Uid = string

  datatype PolicyType = PodsPolicy | PercentPolicy | OtherPolicy

  datatype Policy = Policy(kind: PolicyType, value: int, period: int)

  datatype ResourceName = Cpu | Memory | OtherResource

  datatype TargetType = Utilization | AverageValue | OtherTarget

  datatype Metric = Metric(name: ResourceName, targetType: TargetType, averageValue: real, averageUtilization: real)

  datatype Key = Key(namespace: string, name: string)

  datatype Hpa = Hpa(
    uid: Uid, target: Key, min: int, max: int, scaleWindowSeconds: int, metrics: seq<Metric>,
    up: Option<Policy>, down: Option<Policy>)

  const DEFAULT_SCALE_WINDOW := 15
  const SECOND := 1_000_000_000

  // ---------------------------------------------------------------------------
  // Averages
  // ---------------------------------------------------------------------------

  /** One pod's samples per container within the window; None when the server has none for the pod. */
  type PodSamples = Option<seq<seq<real>>>

  function Sum(xs: seq<real>): real {
    if xs == [] then 0.0 else Sum(xs[..|xs| - 1]) + xs[|xs| - 1]
  }

  function Mean(xs: seq<real>): real {
    if xs == [] then 0.0 else Sum(xs) / |xs| as real
  }

  function Means(xss: seq<seq<real>>): (r: seq<real>)
    ensures |r| == |xss| && forall i :: 0 <= i < |r| ==> r[i] == Mean(xss[i])
  {
    seq(|xss|, i requires 0 <= i < |xss| => Mean(xss[i]))
  }

  /** A pod without samples counts as idle. */
  function PodUsage(p: PodSamples): real {
    if p.None? then 0.0 else Mean(Means(p.value))
  }

  function Usages(pods: seq<PodSamples>): (r: seq<real>)
    ensures |r| == |pods| && forall i :: 0 <= i < |r| ==> r[i] == PodUsage(pods[i])
  {
    seq(|pods|, i requires 0 <= i < |pods| => PodUsage(pods[i]))
  }

  function Average(pods: seq<PodSamples>): real {
    Mean(Usages(pods))
  }

  method GenAvgUsage(pods: seq<PodSamples>) returns (avg: real)
    requires pods != []
    ensures avg == Average(pods)
  {
    avg := 0.0;
    for i := 0 to |pods|
      invariant avg == Sum(Usages(pods[..i]))
    {
      assert Usages(pods[..i + 1])[..i] == Usages(pods[..i]);
      if pods[i].None? || |pods[i].value| == 0 {
        assert PodUsage(pods[i]) == 0.0;
        continue;
      }
      var containers := pods[i].value;
      var podSum := SumOfMeans(containers);
      avg := avg + podSum / |containers| as real;
    }
    assert pods[..|pods|] == pods;
    avg := avg / |pods| as real;
  }

  method SumOfMeans(containers: seq<seq<real>>) returns (podSum: real)
    ensures podSum == Sum(Means(containers))
  {
    podSum := 0.0;
    for j := 0 to |containers|
      invariant podSum == Sum(Means(containers[..j]))
    {
      var sum, avg := 0.0, 0.0;
      for k := 0 to |containers[j]|
        invariant sum == Sum(containers[j][..k])
      {
        assert containers[j][..k + 1][..k] == containers[j][..k];
        sum := sum + containers[j][k];
      }
      assert containers[j][..|containers[j]|] == containers[j];
      if |containers[j]| != 0 {
        avg := sum / |containers[j]| as real;
      }
      assert Means(containers[..j + 1])[..j] == Means(containers[..j]);
      podSum := podSum + avg;
    }
    assert containers[..|containers|] == containers;
  }

  predicate Within(xs: seq<real>, hi: real) {
    forall i :: 0 <= i < |xs| ==> 0.0 <= xs[i] <= hi
  }

  lemma {:induction false} SumWithin(xs: seq<real>, hi: real)
    requires Within(xs, hi) && hi >= 0.0
    ensures 0.0 <= Sum(xs) <= |xs| as real * hi
  {
    if xs != [] {
      SumWithin(xs[..|xs| - 1], hi);
      assert |xs| as real * hi == (|xs| - 1) as real * hi + hi;
    }
  }

  lemma MeanWithin(xs: seq<real>, hi: real)
    requires Within(xs, hi) && hi >= 0.0
    ensures 0.0 <= Mean(xs) <= hi
  {
    SumWithin(xs, hi);
    if xs != [] {
      QuotientWithin(Sum(xs), |xs| as real, hi);
    }
  }

  lemma QuotientWithin(a: real, n: real, hi: real)
    requires n > 0.0 && 0.0 <= a <= n * hi
    ensures 0.0 <= a / n <= hi
  {
    var q := a / n;
    assert q * n == a;
    ProductSign(q, n);
    ProductSign(hi - q, n);
    assert (hi - q) * n == n * hi - a;
  }

  lemma ProductSign(x: real, n: real)
    requires n > 0.0
    ensures x < 0.0 <==> x * n < 0.0
  {
  }

  /** The average never leaves the range of the samples and zero. */
  lemma AverageWithin(pods: seq<PodSamples>, hi: real)
    requires hi >= 0.0
    requires forall p, xs :: p in pods && p.Some? && xs in p.value ==> Within(xs, hi)
    ensures 0.0 <= Average(pods) <= hi
  {
    forall i | 0 <= i < |pods| ensures 0.0 <= Usages(pods)[i] <= hi {
      if pods[i].Some? {
        var containers := pods[i].value;
        forall j | 0 <= j < |containers| ensures 0.0 <= Means(containers)[j] <= hi {
          assert pods[i] in pods && containers[j] in containers;
          MeanWithin(containers[j], hi);
        }
        MeanWithin(Means(containers), hi);
      }
    }
    MeanWithin(Usages(pods), hi);
  }

  // ---------------------------------------------------------------------------
  // What one metric asks for
  // ---------------------------------------------------------------------------

  function Ceil(x: real): int {
    if x == x.Floor as real then x.Floor else x.Floor + 1
  }

  /** int32(x) of a float: out of range it is the least int32, as on amd64. */
  function ToInt32(n: int): (r: int)
    ensures Int32.Min <= r <= Int32.Max
  {
    if Int32.Min <= n <= Int32.Max then n else Int32.Min
  }

  function Min(a: int, b: int): int {
    if a <= b then a else b
  }

  function Max(a: int, b: int): int {
    if a >= b then a else b
  }

  /** Go's division of int32 values by 100, which truncates toward zero. */
  function Percent(value: int, cur: int): int {
    var p := Int32.Wrap(value * cur);
    if p >= 0 then p / 100 else -((-p) / 100)
  }

  /** How far a policy lets the count move, given what the ratio wants. */
  function Allowed(p: Policy, wanted: int, cur: int): int {
    match p.kind
    case PercentPolicy => Min(wanted, Percent(p.value, cur))
    case PodsPolicy => Min(wanted, p.value)
    case OtherPolicy => 1
  }

  datatype Ask = Ask(replicas: int) | Panic

  function WantedUp(cur: int, ratio: real): int {
    Ceil((ratio - 1.0) * cur as real)
  }

  function WantedDown(cur: int, ratio: real): int {
    Ceil((1.0 - ratio) * cur as real)
  }

  /** What is added to the count, and what is taken from it. */
  function Adding(p: Policy, cur: int, ratio: real): int {
    Allowed(p, ToInt32(WantedUp(cur, ratio)), cur)
  }

  function Dropping(p: Policy, cur: int, ratio: real): int {
    Allowed(p, ToInt32(WantedDown(cur, ratio)), cur)
  }

  function ScaleUp(hpa: Hpa, cur: int, ratio: real): Ask {
    if hpa.up.None? then Panic
    else
      var n := Int32.Wrap(cur + Adding(hpa.up.value, cur, ratio));
      Ask(if n > hpa.max then hpa.max else n)
  }

  function ScaleDown(hpa: Hpa, cur: int, ratio: real): Ask {
    if hpa.down.None? then Panic
    else
      var n := Int32.Wrap(cur - Dropping(hpa.down.value, cur, ratio));
      Ask(if n < hpa.min then hpa.min else n)
  }

  /** The average usage, or its ratio to the target, over the upscale period and over the downscale one. */
  datatype Reading = Reading(up: real, down: real)

  /** Up past the upper tolerance, else down past the lower one, else unchanged. */
  function ByRatios(hpa: Hpa, cur: int, ratios: Reading, upper: real, lower: real): Ask {
    if ratios.up > upper then ScaleUp(hpa, cur, ratios.up)
    else if ratios.down < lower then ScaleDown(hpa, cur, ratios.down)
    else Ask(cur)
  }

  /** Usage over target, for both periods. */
  function CpuRatios(m: Metric, r: Reading): Reading
    requires m.averageUtilization != 0.0
  {
    Reading(r.up / (m.averageUtilization / 100.0), r.down / (m.averageUtilization / 100.0))
  }

  function MemoryRatios(m: Metric, r: Reading): Reading
    requires m.averageValue != 0.0
  {
    Reading(r.up / m.averageValue, r.down / m.averageValue)
  }

  function GenRepNumFromCPU(hpa: Hpa, m: Metric, cur: int, r: Reading): Ask
    requires m.targetType == Utilization ==> m.averageUtilization != 0.0
  {
    if m.targetType != Utilization then Ask(-1) else ByRatios(hpa, cur, CpuRatios(m, r), 1.1, 0.9)
  }

  function GenRepNumFromMemory(hpa: Hpa, m: Metric, cur: int, r: Reading): Ask
    requires m.targetType == AverageValue ==> m.averageValue != 0.0
  {
    if m.targetType != AverageValue then Ask(-1) else ByRatios(hpa, cur, MemoryRatios(m, r), 1.5, 0.5)
  }

  predicate IsInt32(n: int) {
    Int32.Min <= n <= Int32.Max
  }

  /** Bounds in order, and policies whose values are int32, as their types say. */
  predicate Typed(hpa: Hpa) {
    && 0 <= hpa.min <= hpa.max <= Int32.Max
    && (hpa.up.Some? ==> IsInt32(hpa.up.value.value)) && (hpa.down.Some? ==> IsInt32(hpa.down.value.value))
  }

  predicate InBounds(hpa: Hpa, n: int) {
    hpa.min <= n <= hpa.max
  }

  lemma AllowedIsInt32(p: Policy, wanted: int, cur: int)
    requires IsInt32(p.value) && IsInt32(wanted)
    ensures IsInt32(Allowed(p, wanted, cur))
  {
  }

  /** The wanted count is an int32 where it matters, and the sum stays an int32 and above the minimum. */
  predicate UpFits(hpa: Hpa, cur: int, ratio: real)
    requires hpa.up.Some?
  {
    var p, wanted := hpa.up.value, WantedUp(cur, ratio);
    && (p.kind.OtherPolicy? || IsInt32(wanted))
    && hpa.min - cur <= Allowed(p, wanted, cur) <= Int32.Max - cur
  }

  /**
   * Scaling up stays within the bounds exactly when the conversion of the wanted count, the product of a percent
   * policy and the sum leave it there. Otherwise it asks for less than the minimum, which no comparison with the
   * maximum catches, and for a negative count when the sum overflows.
   */
  lemma ScaleUpInBoundsIff(hpa: Hpa, cur: int, ratio: real)
    requires Typed(hpa) && InBounds(hpa, cur) && hpa.up.Some?
    ensures var ask, add := ScaleUp(hpa, cur, ratio), Adding(hpa.up.value, cur, ratio);
            && ask.Ask?
            && (InBounds(hpa, ask.replicas) <==> UpFits(hpa, cur, ratio))
            && (UpFits(hpa, cur, ratio) ==> ask.replicas == Min(hpa.max, cur + add))
            && (!UpFits(hpa, cur, ratio) ==> ask.replicas < hpa.min)
            && (cur + add > Int32.Max ==> ask.replicas < 0)
            && (cur + add <= Int32.Max ==> ask.replicas == Min(hpa.max, cur + add))
  {
    var p, wanted := hpa.up.value, WantedUp(cur, ratio);
    AllowedIsInt32(p, ToInt32(wanted), cur);
    WrappedSum(cur, Adding(p, cur, ratio));
  }

  lemma WrappedSum(a: int, b: int)
    requires 0 <= a <= Int32.Max && IsInt32(b)
    ensures Int32.Wrap(a + b) == if a + b <= Int32.Max then a + b else a + b - 0x1_0000_0000
    ensures -Int32.Max <= b ==> Int32.Wrap(a - b) == if a - b <= Int32.Max then a - b else a - b - 0x1_0000_0000
    ensures b == Int32.Min ==> Int32.Wrap(a - b) == a - 0x8000_0000
  {
  }

  /** What is left after dropping is not between the maximum and the greatest int32. */
  predicate DownFits(hpa: Hpa, cur: int, ratio: real)
    requires hpa.down.Some?
  {
    var left := cur - Dropping(hpa.down.value, cur, ratio);
    left <= hpa.max || left > Int32.Max
  }

  /**
   * Scaling down never asks for less than the minimum, and for more than the maximum exactly when a negative amount
   * is dropped, as after a product that wrapped, without the difference wrapping too.
   */
  lemma ScaleDownInBoundsIff(hpa: Hpa, cur: int, ratio: real)
    requires Typed(hpa) && InBounds(hpa, cur) && hpa.down.Some?
    ensures var ask, sub := ScaleDown(hpa, cur, ratio), Dropping(hpa.down.value, cur, ratio);
            && ask.Ask? && ask.replicas >= hpa.min
            && ask.replicas == (if cur - sub <= Int32.Max then Max(hpa.min, cur - sub) else hpa.min)
            && (InBounds(hpa, ask.replicas) <==> DownFits(hpa, cur, ratio))
            && (ask.replicas > cur <==> sub < 0 && cur - sub <= Int32.Max)
  {
    AllowedIsInt32(hpa.down.value, ToInt32(WantedDown(cur, ratio)), cur);
    WrappedSum(cur, Dropping(hpa.down.value, cur, ratio));
  }

  /** A percent policy whose product wraps asks for less than the minimum, or for more than the maximum. */
  lemma WrappedPercentLeavesBounds(uid: Uid, target: Key)
    ensures var up := Hpa(uid, target, 60, 200, 0, [], Some(Policy(PercentPolicy, 42_949_622, 0)), None);
            Typed(up) && InBounds(up, 100) && ScaleUp(up, 100, 2.0) == Ask(50) && !InBounds(up, 50)
    ensures var down := Hpa(uid, target, 60, 150, 0, [], None, Some(Policy(PercentPolicy, 42_949_500, 0)));
            Typed(down) && InBounds(down, 100) && ScaleDown(down, 100, 0.5) == Ask(272) && !InBounds(down, 272)
  {
    assert WantedUp(100, 2.0) == 100 && WantedDown(100, 0.5) == 50;
    assert Percent(42_949_622, 100) == -50 && Percent(42_949_500, 100) == -172;
  }

  // ---------------------------------------------------------------------------
  // Policies
  // ---------------------------------------------------------------------------

  /** Both behaviours set, with policies that are not negative. */
  predicate Reasonable(hpa: Hpa) {
    && Typed(hpa) && hpa.up.Some? && hpa.down.Some?
    && 0 <= hpa.up.value.value && 0 <= hpa.down.value.value
  }

  /** The conversion and the product of a decision stay within int32. */
  predicate Representable(p: Policy, wanted: int, cur: int) {
    IsInt32(wanted) && p.value * cur <= Int32.Max
  }

  lemma WantedIsNatural(gap: real, cur: int)
    requires gap >= 0.0 && cur >= 0
    ensures Ceil(gap * cur as real) >= 0
  {
  }

  /** A percent policy allows at most that part of the current count, rounded down. */
  lemma PercentIsFloor(value: int, cur: int)
    requires 0 <= value && 0 <= cur && value * cur <= Int32.Max
    ensures 100 * Percent(value, cur) <= value * cur < 100 * Percent(value, cur) + 100
  {
    Int32.NonNegativeProduct(value, cur);
  }

  /** What a policy allows: nothing negative, at most its number of pods or percent of the count, and no more than wanted. */
  predicate WithinPolicy(p: Policy, wanted: int, cur: int, n: int) {
    && n >= 0
    && (p.kind.PodsPolicy? ==> n <= p.value)
    && (p.kind.PercentPolicy? ==> 100 * n <= p.value * cur)
    && (!p.kind.OtherPolicy? ==> n <= wanted)
  }

  lemma AllowedWithinPolicy(p: Policy, wanted: int, cur: int)
    requires p.value >= 0 && wanted >= 0 && cur >= 0 && p.value * cur <= Int32.Max
    ensures WithinPolicy(p, wanted, cur, Allowed(p, wanted, cur))
  {
    PercentIsFloor(p.value, cur);
  }

  lemma UpWithinPolicy(hpa: Hpa, cur: int, ratio: real)
    requires Reasonable(hpa) && cur >= 0 && ratio > 1.0 && Representable(hpa.up.value, WantedUp(cur, ratio), cur)
    ensures WithinPolicy(hpa.up.value, WantedUp(cur, ratio), cur, Adding(hpa.up.value, cur, ratio))
  {
    WantedIsNatural(ratio - 1.0, cur);
    AllowedWithinPolicy(hpa.up.value, WantedUp(cur, ratio), cur);
  }

  lemma DownWithinPolicy(hpa: Hpa, cur: int, ratio: real)
    requires Reasonable(hpa) && cur >= 0 && ratio < 1.0 && Representable(hpa.down.value, WantedDown(cur, ratio), cur)
    ensures WithinPolicy(hpa.down.value, WantedDown(cur, ratio), cur, Dropping(hpa.down.value, cur, ratio))
  {
    WantedIsNatural(1.0 - ratio, cur);
    AllowedWithinPolicy(hpa.down.value, WantedDown(cur, ratio), cur);
  }

  // ---------------------------------------------------------------------------
  // All metrics of one autoscaler
  // ---------------------------------------------------------------------------

  /** CPU by utilization and memory by average value; anything else asks for nothing. */
  predicate Supported(m: Metric) {
    (m.name.Cpu? && m.targetType == Utilization) || (m.name.Memory? && m.targetType == AverageValue)
  }

  /** The one target the metric's usage is divided by is there. */
  predicate TargetSet(m: Metric) {
    Supported(m) ==> if m.name.Cpu? then m.averageUtilization != 0.0 else m.averageValue != 0.0
  }

  predicate TargetsSet(hpa: Hpa) {
    forall m :: m in hpa.metrics ==> TargetSet(m)
  }

  function Ratios(m: Metric, r: Reading): Reading
    requires Supported(m) && TargetSet(m)
  {
    if m.name.Cpu? then CpuRatios(m, r) else MemoryRatios(m, r)
  }

  function UpperTolerance(m: Metric): real {
    if m.name.Cpu? then 1.1 else 1.5
  }

  function LowerTolerance(m: Metric): real {
    if m.name.Cpu? then 0.9 else 0.5
  }

  function AskOf(hpa: Hpa, i: nat, cur: int, r: Reading): Ask
    requires i < |hpa.metrics| && TargetsSet(hpa)
  {
    var m := hpa.metrics[i];
    assert TargetSet(m);
    match m.name
    case Cpu => GenRepNumFromCPU(hpa, m, cur, r)
    case Memory => GenRepNumFromMemory(hpa, m, cur, r)
    case OtherResource => Ask(-1)
  }

  function Asks(hpa: Hpa, cur: int, readings: seq<Reading>): (r: seq<Ask>)
    requires |hpa.metrics| == |readings| && TargetsSet(hpa)
    ensures |r| == |readings| && forall i :: 0 <= i < |r| ==> r[i] == AskOf(hpa, i, cur, readings[i])
  {
    seq(|readings|, i requires 0 <= i < |readings| => AskOf(hpa, i, cur, readings[i]))
  }

  /** The greatest count among the first n asks, starting from 0; -1 asks for nothing. */
  function MaxAsk(asks: seq<Ask>, n: nat): Ask
    requires n <= |asks|
  {
    if n == 0 then Ask(0)
    else
      var before := MaxAsk(asks, n - 1);
      if before.Panic? || asks[n - 1].Panic? then Panic
      else if asks[n - 1].replicas == -1 then before
      else Ask(Max(before.replicas, asks[n - 1].replicas))
  }

  lemma {:induction false} PanicStays(asks: seq<Ask>, n: nat)
    requires n <= |asks| && MaxAsk(asks, n).Panic?
    ensures MaxAsk(asks, |asks|).Panic?
    decreases |asks| - n
  {
    if n < |asks| { PanicStays(asks, n + 1); }
  }

  method MaxRpsNumAprd(hpa: Hpa, cur: int, readings: seq<Reading>) returns (r: Ask)
    requires |hpa.metrics| == |readings| && TargetsSet(hpa)
    ensures r == MaxAsk(Asks(hpa, cur, readings), |readings|)
  {
    ghost var asks := Asks(hpa, cur, readings);
    var maxRpsNumAprd := 0;
    for i := 0 to |hpa.metrics|
      invariant MaxAsk(asks, i) == Ask(maxRpsNumAprd)
    {
      var ask := AskOf(hpa, i, cur, readings[i]);
      if ask.Panic? {
        PanicStays(asks, i + 1);
        return Panic;
      }
      if ask.replicas != -1 {
        maxRpsNumAprd := Max(maxRpsNumAprd, ask.replicas);
      }
    }
    return Ask(maxRpsNumAprd);
  }

  /** The decision these ratios lead to converts and multiplies within int32; its sum may still wrap. */
  predicate RepresentableAt(hpa: Hpa, cur: int, ratios: Reading, upper: real, lower: real)
    requires hpa.up.Some? && hpa.down.Some?
  {
    && (ratios.up > upper ==> Representable(hpa.up.value, WantedUp(cur, ratios.up), cur))
    && (ratios.up <= upper && ratios.down < lower ==> Representable(hpa.down.value, WantedDown(cur, ratios.down), cur))
  }

  predicate MetricRepresentable(hpa: Hpa, cur: int, m: Metric, r: Reading)
    requires TargetSet(m) && hpa.up.Some? && hpa.down.Some?
  {
    Supported(m) ==> RepresentableAt(hpa, cur, Ratios(m, r), UpperTolerance(m), LowerTolerance(m))
  }

  predicate AllRepresentable(hpa: Hpa, cur: int, readings: seq<Reading>)
    requires |hpa.metrics| == |readings| && TargetsSet(hpa) && hpa.up.Some? && hpa.down.Some?
  {
    forall i :: 0 <= i < |readings| ==> MetricRepresentable(hpa, cur, hpa.metrics[i], readings[i])
  }

  /**
   * An ask differs from the current count only where the usage left the tolerance around its target; it is higher
   * only above it, and lower, but not negative, only below it without having been above.
   */
  lemma CpuMovesOutsideTolerance(hpa: Hpa, m: Metric, cur: int, r: Reading)
    requires Reasonable(hpa) && InBounds(hpa, cur) && m.averageUtilization > 0.0 && m.targetType == Utilization
    ensures var ask := GenRepNumFromCPU(hpa, m, cur, r);
            && ask.Ask?
            && (ask.replicas != cur ==> 100.0 * r.up > 1.1 * m.averageUtilization || 100.0 * r.down < 0.9 * m.averageUtilization)
            && (RepresentableAt(hpa, cur, CpuRatios(m, r), 1.1, 0.9) ==>
                  && (ask.replicas > cur ==> 100.0 * r.up > 1.1 * m.averageUtilization)
                  && (0 <= ask.replicas < cur ==>
                        100.0 * r.up <= 1.1 * m.averageUtilization && 100.0 * r.down < 0.9 * m.averageUtilization))
  {
    var target := m.averageUtilization / 100.0;
    RatioAgainst(r.up, target, 1.1);
    RatioAgainst(r.down, target, 0.9);
    RatiosMove(hpa, cur, CpuRatios(m, r), 1.1, 0.9);
  }

  lemma MemoryMovesOutsideTolerance(hpa: Hpa, m: Metric, cur: int, r: Reading)
    requires Reasonable(hpa) && InBounds(hpa, cur) && m.averageValue > 0.0 && m.targetType == AverageValue
    ensures var ask := GenRepNumFromMemory(hpa, m, cur, r);
            && ask.Ask?
            && (ask.replicas != cur ==> r.up > 1.5 * m.averageValue || r.down < 0.5 * m.averageValue)
            && (RepresentableAt(hpa, cur, MemoryRatios(m, r), 1.5, 0.5) ==>
                  && (ask.replicas > cur ==> r.up > 1.5 * m.averageValue)
                  && (0 <= ask.replicas < cur ==> r.up <= 1.5 * m.averageValue && r.down < 0.5 * m.averageValue))
  {
    RatioAgainst(r.up, m.averageValue, 1.5);
    RatioAgainst(r.down, m.averageValue, 0.5);
    RatiosMove(hpa, cur, MemoryRatios(m, r), 1.5, 0.5);
  }

  lemma RatioAgainst(usage: real, target: real, bound: real)
    requires target > 0.0
    ensures usage / target > bound <==> usage > bound * target
    ensures usage / target < bound <==> usage < bound * target
  {
    var q := usage / target;
    assert q * target == usage;
    ProductSign(q - bound, target);
    ProductSign(bound - q, target);
    assert (q - bound) * target == usage - bound * target;
    assert (bound - q) * target == bound * target - usage;
  }

  lemma RatiosMove(hpa: Hpa, cur: int, ratios: Reading, upper: real, lower: real)
    requires Reasonable(hpa) && InBounds(hpa, cur) && upper > 1.0 && lower < 1.0
    ensures var ask := ByRatios(hpa, cur, ratios, upper, lower);
            && ask.Ask?
            && (ask.replicas != cur ==> ratios.up > upper || ratios.down < lower)
            && (RepresentableAt(hpa, cur, ratios, upper, lower) ==>
                  && (ask.replicas > cur ==> ratios.up > upper)
                  && (0 <= ask.replicas < cur ==> ratios.up <= upper && ratios.down < lower))
  {
    if RepresentableAt(hpa, cur, ratios, upper, lower) {
      if ratios.up > upper {
        ScaleUpInBoundsIff(hpa, cur, ratios.up);
        UpWithinPolicy(hpa, cur, ratios.up);
      } else if ratios.down < lower {
        ScaleDownInBoundsIff(hpa, cur, ratios.down);
        DownWithinPolicy(hpa, cur, ratios.down);
      }
    }
  }

  /** What a metric may ask for: nothing, something negative that is dropped, or a count within bounds and policies. */
  predicate GoodAsk(hpa: Hpa, cur: int, ask: Ask)
    requires hpa.up.Some? && hpa.down.Some?
  {
    ask.Ask? && (ask.replicas < 0 || Moved(hpa, cur, ask.replicas))
  }

  predicate Moved(hpa: Hpa, cur: int, next: int)
    requires hpa.up.Some? && hpa.down.Some?
  {
    && InBounds(hpa, next)
    && (hpa.up.value.kind.PodsPolicy? && hpa.up.value.value >= 0 ==> next <= cur + hpa.up.value.value)
    && (hpa.down.value.kind.PodsPolicy? && hpa.down.value.value >= 0 ==> next >= cur - hpa.down.value.value)
  }

  lemma ByRatiosIsGood(hpa: Hpa, cur: int, ratios: Reading, upper: real, lower: real)
    requires Reasonable(hpa) && InBounds(hpa, cur) && upper > 1.0 && lower < 1.0
    requires RepresentableAt(hpa, cur, ratios, upper, lower)
    ensures GoodAsk(hpa, cur, ByRatios(hpa, cur, ratios, upper, lower))
  {
    if ratios.up > upper {
      ScaleUpIsGood(hpa, cur, ratios.up);
    } else if ratios.down < lower {
      ScaleDownIsGood(hpa, cur, ratios.down);
    } else {
      assert Moved(hpa, cur, cur);
    }
  }

  lemma ScaleUpIsGood(hpa: Hpa, cur: int, ratio: real)
    requires Reasonable(hpa) && InBounds(hpa, cur) && ratio > 1.0
    requires Representable(hpa.up.value, WantedUp(cur, ratio), cur)
    ensures GoodAsk(hpa, cur, ScaleUp(hpa, cur, ratio))
  {
    ScaleUpInBoundsIff(hpa, cur, ratio);
    UpWithinPolicy(hpa, cur, ratio);
    var add := Adding(hpa.up.value, cur, ratio);
    if cur + add <= Int32.Max {
      ClampedUp(hpa, cur, add, ScaleUp(hpa, cur, ratio));
    }
  }

  lemma ClampedUp(hpa: Hpa, cur: int, add: int, ask: Ask)
    requires Reasonable(hpa) && InBounds(hpa, cur) && add >= 0 && ask == Ask(Min(hpa.max, cur + add))
    requires hpa.up.value.kind.PodsPolicy? ==> add <= hpa.up.value.value
    ensures GoodAsk(hpa, cur, ask)
  {
  }

  lemma ScaleDownIsGood(hpa: Hpa, cur: int, ratio: real)
    requires Reasonable(hpa) && InBounds(hpa, cur) && ratio < 1.0
    requires Representable(hpa.down.value, WantedDown(cur, ratio), cur)
    ensures GoodAsk(hpa, cur, ScaleDown(hpa, cur, ratio))
  {
    ScaleDownInBoundsIff(hpa, cur, ratio);
    DownWithinPolicy(hpa, cur, ratio);
    ClampedDown(hpa, cur, Dropping(hpa.down.value, cur, ratio), ScaleDown(hpa, cur, ratio));
  }

  lemma ClampedDown(hpa: Hpa, cur: int, sub: int, ask: Ask)
    requires Reasonable(hpa) && InBounds(hpa, cur) && sub >= 0 && ask == Ask(Max(hpa.min, cur - sub))
    requires hpa.down.value.kind.PodsPolicy? ==> sub <= hpa.down.value.value
    ensures GoodAsk(hpa, cur, ask)
  {
  }

  lemma AsksAreGood(hpa: Hpa, cur: int, readings: seq<Reading>)
    requires Reasonable(hpa) && InBounds(hpa, cur) && |hpa.metrics| == |readings| && TargetsSet(hpa)
    requires AllRepresentable(hpa, cur, readings)
    ensures AllGood(hpa, cur, Asks(hpa, cur, readings))
  {
    forall i | 0 <= i < |readings| ensures GoodAsk(hpa, cur, AskOf(hpa, i, cur, readings[i])) {
      var m, r := hpa.metrics[i], readings[i];
      assert MetricRepresentable(hpa, cur, m, r);
      if Supported(m) {
        ByRatiosIsGood(hpa, cur, Ratios(m, r), UpperTolerance(m), LowerTolerance(m));
      }
    }
  }

  predicate AllGood(hpa: Hpa, cur: int, asks: seq<Ask>)
    requires hpa.up.Some? && hpa.down.Some?
  {
    forall i :: 0 <= i < |asks| ==> GoodAsk(hpa, cur, asks[i])
  }

  /** The result is 0 when nothing positive is asked for, else the greatest of the asks. */
  lemma {:induction false} GreatestAskWins(asks: seq<Ask>, n: nat)
    requires n <= |asks| && forall i :: 0 <= i < |asks| ==> asks[i].Ask?
    ensures var most := MaxAsk(asks, n);
            && most.Ask?
            && most.replicas >= 0 && (most.replicas == 0 || most in asks[..n])
            && forall i :: 0 <= i < n ==> asks[i].replicas <= most.replicas
  {
    if n > 0 {
      GreatestAskWins(asks, n - 1);
      assert asks[..n] == asks[..n - 1] + [asks[n - 1]];
    }
  }

  lemma BestIsGood(hpa: Hpa, cur: int, asks: seq<Ask>)
    requires Reasonable(hpa) && AllGood(hpa, cur, asks)
    ensures var most := MaxAsk(asks, |asks|);
            most.Ask? && (most.replicas == 0 || Moved(hpa, cur, most.replicas))
  {
    GreatestAskWins(asks, |asks|);
    var most := MaxAsk(asks, |asks|);
    if most.replicas != 0 {
      var i :| 0 <= i < |asks| && asks[i] == most;
      assert GoodAsk(hpa, cur, asks[i]);
    }
  }

  // ---------------------------------------------------------------------------
  // The closed loop
  // ---------------------------------------------------------------------------

  /** The replica sets' wanted counts, and when each autoscaler last acted. */
  datatype State = State(replicas: map<Key, int>, prevAct: map<Uid, int>)

  /** What the server answers for one metric, over the upscale and the downscale period. */
  datatype Samples = Samples(up: seq<PodSamples>, down: seq<PodSamples>)

  /**
    One autoscaler's turn: how many pods match its target, the samples per metric, the two clock readings,
    and whether the update gets through.
  */
  datatype Turn = Turn(hpa: Hpa, pods: nat, samples: seq<Samples>, checkedAt: int, actedAt: int, updateOk: bool)

  /** As many samples as metrics, each for every matched pod; there may be no such pod. */
  predicate WellFormed(t: Turn) {
    && |t.samples| == |t.hpa.metrics| && TargetsSet(t.hpa)
    && forall s :: s in t.samples ==> |s.up| == |s.down| == t.pods
  }

  /** There is something to scale. */
  predicate Matches(s: State, t: Turn) {
    t.hpa.target in s.replicas && t.pods > 0
  }

  function Readings(samples: seq<Samples>): (r: seq<Reading>)
    ensures |r| == |samples|
    ensures forall i :: 0 <= i < |r| ==> r[i] == Reading(Average(samples[i].up), Average(samples[i].down))
  {
    seq(|samples|, i requires 0 <= i < |samples| => Reading(Average(samples[i].up), Average(samples[i].down)))
  }

  function Window(hpa: Hpa): int {
    (if hpa.scaleWindowSeconds == 0 then DEFAULT_SCALE_WINDOW else hpa.scaleWindowSeconds) * SECOND
  }

  predicate Cooling(s: State, t: Turn) {
    t.hpa.uid in s.prevAct && t.checkedAt - s.prevAct[t.hpa.uid] < Window(t.hpa)
  }

  /** The turn reaches a decision, whether or not it changes anything. */
  predicate Decides(s: State, t: Turn) {
    Matches(s, t) && !Cooling(s, t)
  }

  /** None stands for the crash on a missing behaviour. */
  function TurnResult(s: State, t: Turn): Option<State>
    requires WellFormed(t)
  {
    if !Matches(s, t) then Some(s)
    else
      var cur := s.replicas[t.hpa.target];
      var ask := MaxAsk(Asks(t.hpa, cur, Readings(t.samples)), |t.samples|);
      if ask.Panic? then None
      else if Cooling(s, t) then Some(s)
      else
        var s1 := s.(prevAct := s.prevAct[t.hpa.uid := t.actedAt]);
        if ask.replicas != cur && ask.replicas != 0 && t.updateOk
        then Some(s1.(replicas := s1.replicas[t.hpa.target := ask.replicas]))
        else Some(s1)
  }

  class HorizontalController {
    var state: State

    constructor (s: State)
      ensures state == s
    {
      state := s;
    }

    method Conduct(t: Turn) returns (crashed: bool)
      requires WellFormed(t)
      modifies this
      ensures crashed <==> TurnResult(old(state), t).None?
      ensures state == if crashed then old(state) else TurnResult(old(state), t).value
    {
      if t.hpa.target !in state.replicas {
        return false;
      }
      if t.pods == 0 {
        return false;
      }
      var curRpsNum := state.replicas[t.hpa.target];
      var readings := ReadAll(t.samples);
      var maxRpsNumAprd := MaxRpsNumAprd(t.hpa, curRpsNum, readings);
      if maxRpsNumAprd.Panic? {
        return true;
      }
      var scaleWindowSz := t.hpa.scaleWindowSeconds;
      if scaleWindowSz == 0 {
        scaleWindowSz := DEFAULT_SCALE_WINDOW;
      }
      if t.hpa.uid in state.prevAct && t.checkedAt - state.prevAct[t.hpa.uid] < scaleWindowSz * SECOND {
        return false;
      }
      state := state.(prevAct := state.prevAct[t.hpa.uid := t.actedAt]);
      if maxRpsNumAprd.replicas != curRpsNum && maxRpsNumAprd.replicas != 0 {
        if t.updateOk {
          state := state.(replicas := state.replicas[t.hpa.target := maxRpsNumAprd.replicas]);
        }
      }
      return false;
    }

    static method ReadAll(samples: seq<Samples>) returns (readings: seq<Reading>)
      requires forall s :: s in samples ==> s.up != [] && s.down != []
      ensures readings == Readings(samples)
    {
      readings := [];
      for i := 0 to |samples|
        invariant readings == Readings(samples[..i])
      {
        var up := GenAvgUsage(samples[i].up);
        var down := GenAvgUsage(samples[i].down);
        readings := readings + [Reading(up, down)];
      }
      assert samples[..|samples|] == samples;
    }
  }

  // ---------------------------------------------------------------------------
  // The crash on a missing behaviour
  // ---------------------------------------------------------------------------

  /** The metric leaves its tolerance on a side whose behaviour the autoscaler does not set. */
  predicate MissesBehaviour(hpa: Hpa, m: Metric, r: Reading)
    requires TargetSet(m)
  {
    && Supported(m)
    && if Ratios(m, r).up > UpperTolerance(m) then hpa.up.None? else Ratios(m, r).down < LowerTolerance(m) && hpa.down.None?
  }

  lemma AskPanicsIff(hpa: Hpa, i: nat, cur: int, r: Reading)
    requires i < |hpa.metrics| && TargetsSet(hpa)
    ensures AskOf(hpa, i, cur, r).Panic? <==> MissesBehaviour(hpa, hpa.metrics[i], r)
  {
  }

  lemma {:induction false} MaxPanicsIff(asks: seq<Ask>, n: nat)
    requires n <= |asks|
    ensures MaxAsk(asks, n).Panic? <==> exists i :: 0 <= i < n && asks[i].Panic?
  {
    if n > 0 { MaxPanicsIff(asks, n - 1); }
  }

  /**
   * Despite its default policies a turn crashes if and only if something matches and some supported metric leaves
   * its tolerance on a side without a behaviour, cooldown or not.
   */
  lemma CrashIff(s: State, t: Turn)
    requires WellFormed(t)
    ensures TurnResult(s, t).None? <==>
            && Matches(s, t)
            && exists i :: 0 <= i < |t.hpa.metrics| && MissesBehaviour(t.hpa, t.hpa.metrics[i], Readings(t.samples)[i])
  {
    if Matches(s, t) {
      var cur, readings := s.replicas[t.hpa.target], Readings(t.samples);
      var asks := Asks(t.hpa, cur, readings);
      MaxPanicsIff(asks, |asks|);
      forall i | 0 <= i < |asks| ensures asks[i].Panic? <==> MissesBehaviour(t.hpa, t.hpa.metrics[i], readings[i]) {
        AskPanicsIff(t.hpa, i, cur, readings[i]);
      }
    }
  }

  /** The turn's autoscaler has both behaviours, and its decisions convert and multiply within int32. */
  predicate Tame(s: State, t: Turn)
    requires WellFormed(t)
  {
    && Reasonable(t.hpa)
    && (Matches(s, t) ==> AllRepresentable(t.hpa, s.replicas[t.hpa.target], Readings(t.samples)))
  }

  ghost predicate IsRun(states: seq<State>, turns: seq<Turn>) {
    && |states| == |turns| + 1
    && forall i :: 0 <= i < |turns| ==>
         WellFormed(turns[i]) && TurnResult(states[i], turns[i]) == Some(states[i + 1])
  }

  /** A turn never crashes, keeps the bounds, and moves the count no further than the policies allow. */
  lemma TurnKeepsBounds(s: State, t: Turn)
    requires WellFormed(t) && Tame(s, t)
    requires t.hpa.target in s.replicas ==> InBounds(t.hpa, s.replicas[t.hpa.target])
    ensures TurnResult(s, t).Some?
    ensures var s' := TurnResult(s, t).value;
            && s'.replicas.Keys == s.replicas.Keys
            && (forall k :: k in s.replicas && k != t.hpa.target ==> s'.replicas[k] == s.replicas[k])
            && (t.hpa.target in s.replicas ==> Moved(t.hpa, s.replicas[t.hpa.target], s'.replicas[t.hpa.target]))
            && (s'.replicas != s.replicas ==> Decides(s, t))
  {
    if t.hpa.target in s.replicas {
      assert Moved(t.hpa, s.replicas[t.hpa.target], s.replicas[t.hpa.target]);
    }
    if Matches(s, t) {
      var cur, readings := s.replicas[t.hpa.target], Readings(t.samples);
      AsksAreGood(t.hpa, cur, readings);
      BestIsGood(t.hpa, cur, Asks(t.hpa, cur, readings));
    }
  }

  // ---------------------------------------------------------------------------
  // When the count stays within its bounds
  // ---------------------------------------------------------------------------

  /** The metric asks for scaling down to more than the maximum. */
  predicate Overshoots(hpa: Hpa, cur: int, m: Metric, r: Reading)
    requires TargetSet(m)
  {
    && Supported(m) && Ratios(m, r).up <= UpperTolerance(m) && Ratios(m, r).down < LowerTolerance(m)
    && hpa.down.Some? && !DownFits(hpa, cur, Ratios(m, r).down)
  }

  predicate Rises(m: Metric, r: Reading)
    requires TargetSet(m)
  {
    Supported(m) && Ratios(m, r).up > UpperTolerance(m)
  }

  /** The metric asks for scaling up to something positive below the minimum. */
  predicate Undershoots(hpa: Hpa, cur: int, m: Metric, r: Reading)
    requires TargetSet(m)
  {
    Rises(m, r) && hpa.up.Some? && 0 < cur + Adding(hpa.up.value, cur, Ratios(m, r).up) < hpa.min
  }

  /** The metric asks for at least the minimum: it does not rise, or its upscale fits. */
  predicate HoldsMinimum(hpa: Hpa, cur: int, m: Metric, r: Reading)
    requires TargetSet(m)
  {
    Supported(m) && (Rises(m, r) ==> hpa.up.Some? && UpFits(hpa, cur, Ratios(m, r).up))
  }

  /** No metric overshoots, and one that undershoots is outbid. */
  predicate AsksFit(hpa: Hpa, cur: int, readings: seq<Reading>)
    requires |hpa.metrics| == |readings| && TargetsSet(hpa)
  {
    && (forall i :: 0 <= i < |readings| ==> !Overshoots(hpa, cur, hpa.metrics[i], readings[i]))
    && ((exists i :: 0 <= i < |readings| && Undershoots(hpa, cur, hpa.metrics[i], readings[i])) ==>
          exists i :: 0 <= i < |readings| && HoldsMinimum(hpa, cur, hpa.metrics[i], readings[i]))
  }

  /** What the three cases mean for the ask. */
  lemma AskClasses(hpa: Hpa, i: nat, cur: int, r: Reading)
    requires i < |hpa.metrics| && TargetsSet(hpa) && Typed(hpa) && InBounds(hpa, cur) && AskOf(hpa, i, cur, r).Ask?
    ensures var m, n := hpa.metrics[i], AskOf(hpa, i, cur, r).replicas;
            && (Overshoots(hpa, cur, m, r) <==> n > hpa.max)
            && (Undershoots(hpa, cur, m, r) <==> 0 < n < hpa.min)
            && (HoldsMinimum(hpa, cur, m, r) <==> n >= hpa.min)
  {
    var m := hpa.metrics[i];
    assert TargetSet(m);
    if Supported(m) {
      if Rises(m, r) {
        ScaleUpInBoundsIff(hpa, cur, Ratios(m, r).up);
      } else if Ratios(m, r).down < LowerTolerance(m) {
        ScaleDownInBoundsIff(hpa, cur, Ratios(m, r).down);
      }
    }
  }

  /** The same, of the asks themselves. */
  predicate AsksInBounds(hpa: Hpa, asks: seq<Ask>)
    requires NonePanics(asks)
  {
    && (forall i :: 0 <= i < |asks| ==> asks[i].replicas <= hpa.max)
    && ((exists i :: 0 <= i < |asks| && 0 < asks[i].replicas < hpa.min) ==>
          exists i :: 0 <= i < |asks| && asks[i].replicas >= hpa.min)
  }

  predicate NonePanics(asks: seq<Ask>) {
    forall i :: 0 <= i < |asks| ==> asks[i].Ask?
  }

  lemma FitsMeansInBounds(hpa: Hpa, cur: int, readings: seq<Reading>, asks: seq<Ask>)
    requires |hpa.metrics| == |readings| && TargetsSet(hpa) && Typed(hpa) && InBounds(hpa, cur)
    requires asks == Asks(hpa, cur, readings) && NonePanics(asks)
    ensures AsksFit(hpa, cur, readings) <==> AsksInBounds(hpa, asks)
  {
    forall i | 0 <= i < |asks|
      ensures Overshoots(hpa, cur, hpa.metrics[i], readings[i]) <==> asks[i].replicas > hpa.max
      ensures Undershoots(hpa, cur, hpa.metrics[i], readings[i]) <==> 0 < asks[i].replicas < hpa.min
      ensures HoldsMinimum(hpa, cur, hpa.metrics[i], readings[i]) <==> asks[i].replicas >= hpa.min
    {
      AskClasses(hpa, i, cur, readings[i]);
    }
  }

  lemma MostInBoundsIff(hpa: Hpa, cur: int, readings: seq<Reading>)
    requires |hpa.metrics| == |readings| && TargetsSet(hpa) && Typed(hpa) && InBounds(hpa, cur)
    requires MaxAsk(Asks(hpa, cur, readings), |readings|).Ask?
    ensures var most := MaxAsk(Asks(hpa, cur, readings), |readings|).replicas;
            most == 0 || InBounds(hpa, most) <==> AsksFit(hpa, cur, readings)
  {
    var asks := Asks(hpa, cur, readings);
    MaxPanicsIff(asks, |asks|);
    FitsMeansInBounds(hpa, cur, readings, asks);
    GreatestInBoundsIff(asks, hpa);
  }

  lemma GreatestInBoundsIff(asks: seq<Ask>, hpa: Hpa)
    requires Typed(hpa) && NonePanics(asks)
    ensures MaxAsk(asks, |asks|).Ask?
    ensures var most := MaxAsk(asks, |asks|).replicas;
            most == 0 || InBounds(hpa, most) <==> AsksInBounds(hpa, asks)
  {
    GreatestAskWins(asks, |asks|);
    var most := MaxAsk(asks, |asks|);
    if most.replicas != 0 {
      var i :| 0 <= i < |asks| && asks[i] == most;
      assert 0 <= i < |asks| && asks[i].replicas == most.replicas;
    }
  }

  /** The turn changes nothing, or what it writes is within the bounds. */
  predicate TurnFits(s: State, t: Turn)
    requires WellFormed(t)
  {
    Decides(s, t) && t.updateOk ==> AsksFit(t.hpa, s.replicas[t.hpa.target], Readings(t.samples))
  }

  /**
   * A turn that does not crash keeps a count within its bounds if and only if it has no say, or no metric asks to
   * scale down to more than the maximum and none that asks for a positive count below the minimum goes unmatched.
   * Negative asks, as of an overflowing sum, are harmless.
   */
  lemma TurnInBoundsIff(s: State, t: Turn, s': State)
    requires WellFormed(t) && TurnResult(s, t) == Some(s') && Typed(t.hpa)
    requires t.hpa.target in s.replicas && InBounds(t.hpa, s.replicas[t.hpa.target])
    ensures t.hpa.target in s'.replicas
    ensures InBounds(t.hpa, s'.replicas[t.hpa.target]) <==> TurnFits(s, t)
  {
    if Matches(s, t) {
      MostInBoundsIff(t.hpa, s.replicas[t.hpa.target], Readings(t.samples));
    }
  }

  /** Whoever scales the same set uses the same bounds. */
  predicate SameBounds(turns: seq<Turn>, h: Hpa) {
    forall i :: 0 <= i < |turns| && turns[i].hpa.target == h.target ==>
      Typed(turns[i].hpa) && turns[i].hpa.min == h.min && turns[i].hpa.max == h.max
  }

  /** Each of the first n turns of the set's autoscalers fits. */
  ghost predicate TurnsFit(states: seq<State>, turns: seq<Turn>, h: Hpa, n: nat)
    requires IsRun(states, turns) && n <= |turns|
  {
    forall i :: 0 <= i < n && turns[i].hpa.target == h.target ==> TurnFits(states[i], turns[i])
  }

  ghost predicate StaysInBounds(states: seq<State>, h: Hpa, n: nat)
    requires n < |states|
  {
    forall i :: 0 <= i <= n ==> h.target in states[i].replicas && InBounds(h, states[i].replicas[h.target])
  }

  /** Starting within its bounds a set stays within them over a run if and only if every turn of its autoscalers fits. */
  lemma {:induction false} ClosedLoopStaysInBoundsIff(states: seq<State>, turns: seq<Turn>, h: Hpa, n: nat)
    requires IsRun(states, turns) && n <= |turns| && SameBounds(turns, h)
    requires h.target in states[0].replicas && InBounds(h, states[0].replicas[h.target])
    ensures StaysInBounds(states, h, n) <==> TurnsFit(states, turns, h, n)
  {
    if n > 0 {
      ClosedLoopStaysInBoundsIff(states, turns, h, n - 1);
      assert StaysInBounds(states, h, n) <==>
          StaysInBounds(states, h, n - 1) && h.target in states[n].replicas && InBounds(h, states[n].replicas[h.target]);
      if StaysInBounds(states, h, n - 1) {
        var t := turns[n - 1];
        assert TurnResult(states[n - 1], t) == Some(states[n]);
        StepInBoundsIff(states[n - 1], t, states[n], h);
      }
    }
  }

  lemma StepInBoundsIff(s: State, t: Turn, s': State, h: Hpa)
    requires WellFormed(t) && TurnResult(s, t) == Some(s')
    requires t.hpa.target == h.target ==> Typed(t.hpa) && t.hpa.min == h.min && t.hpa.max == h.max
    requires h.target in s.replicas && InBounds(h, s.replicas[h.target])
    ensures h.target in s'.replicas
    ensures InBounds(h, s'.replicas[h.target]) <==> (t.hpa.target == h.target ==> TurnFits(s, t))
  {
    if t.hpa.target == h.target {
      TurnInBoundsIff(s, t, s');
    }
  }

  /** The times one autoscaler's decisions are recorded at. */
  function DecisionTimes(states: seq<State>, turns: seq<Turn>, uid: Uid, n: nat): seq<int>
    requires n <= |turns| <= |states|
  {
    if n == 0 then []
    else
      DecisionTimes(states, turns, uid, n - 1) +
      if turns[n - 1].hpa.uid == uid && Decides(states[n - 1], turns[n - 1]) then [turns[n - 1].actedAt] else []
  }

  /** The clock is read twice in a turn, and never goes back; the window of the autoscaler does not change. */
  predicate Clocked(turns: seq<Turn>, uid: Uid, window: int) {
    forall i :: 0 <= i < |turns| ==>
      turns[i].checkedAt <= turns[i].actedAt && (turns[i].hpa.uid == uid ==> Window(turns[i].hpa) == window)
  }

  predicate ApartBy(times: seq<int>, window: int) {
    forall i, j :: 0 <= i < j < |times| ==> times[j] - times[i] >= window
  }

  /** Recorded decisions of one autoscaler are at least one scale window apart. */
  lemma {:induction false} DecisionsAreApart(states: seq<State>, turns: seq<Turn>, uid: Uid, window: int, n: nat)
    requires IsRun(states, turns) && n <= |turns| && states[0].prevAct == map[]
    requires Clocked(turns, uid, window) && window >= 0
    ensures var times := DecisionTimes(states, turns, uid, n);
            && ApartBy(times, window)
            && (times == [] ==> uid !in states[n].prevAct)
            && (times != [] ==> uid in states[n].prevAct && states[n].prevAct[uid] == times[|times| - 1])
  {
    if n > 0 {
      DecisionsAreApart(states, turns, uid, window, n - 1);
      var t := turns[n - 1];
      assert TurnResult(states[n - 1], t) == Some(states[n]);
      ActRecorded(states[n - 1], t, states[n], uid);
      var times := DecisionTimes(states, turns, uid, n - 1);
      if t.hpa.uid == uid && Decides(states[n - 1], t) {
        MoreApart(times, t.actedAt, window);
      }
    }
  }

  lemma ActRecorded(s: State, t: Turn, s': State, uid: Uid)
    requires WellFormed(t) && TurnResult(s, t) == Some(s')
    ensures if t.hpa.uid == uid && Decides(s, t) then uid in s'.prevAct && s'.prevAct[uid] == t.actedAt
            else (uid in s'.prevAct <==> uid in s.prevAct) && (uid in s.prevAct ==> s'.prevAct[uid] == s.prevAct[uid])
  {
  }

  lemma MoreApart(times: seq<int>, now: int, window: int)
    requires ApartBy(times, window) && window >= 0
    requires times != [] ==> now - times[|times| - 1] >= window
    ensures ApartBy(times + [now], window)
  {
  }
}
