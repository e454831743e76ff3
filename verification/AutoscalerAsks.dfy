/** What an autoscaler's turn writes, told in ratios, policies and counts. */
module AutoscalerAsks {
  import opened Wrappers
  import opened Autoscaler
  import Int32

  // ---------------------------------------------------------------------------
  // What one metric should ask for
  // ---------------------------------------------------------------------------

  /** n is the least integer that is not below x. */
  predicate LeastFrom(n: int, x: real) {
    n as real - 1.0 < x <= n as real
  }

  /** A move by n: what is wanted, as far as so many pods or percent of the count allow; with any other policy one pod. */
  predicate MovesBy(p: Policy, wanted: int, cur: int, n: int) {
    match p.kind
    case PodsPolicy => n == if wanted <= p.value then wanted else p.value
    case PercentPolicy => if 100 * wanted <= p.value * cur then n == wanted else 100 * n <= p.value * cur < 100 * n + 100
    case OtherPolicy => n == 1
  }

  ghost predicate RisesTo(hpa: Hpa, cur: int, ratio: real, next: int)
    requires hpa.up.Some?
  {
    exists wanted, n ::
      && LeastFrom(wanted, (ratio - 1.0) * cur as real) && MovesBy(hpa.up.value, wanted, cur, n)
      && next == if cur + n > hpa.max then hpa.max else cur + n
  }

  ghost predicate FallsTo(hpa: Hpa, cur: int, ratio: real, next: int)
    requires hpa.down.Some?
  {
    exists wanted, n ::
      && LeastFrom(wanted, (1.0 - ratio) * cur as real) && MovesBy(hpa.down.value, wanted, cur, n)
      && next == if cur - n < hpa.min then hpa.min else cur - n
  }

  /** Up past the upper bound, else down past the lower one, else unchanged. */
  ghost predicate Follows(hpa: Hpa, cur: int, up: real, down: real, upper: real, lower: real, next: int)
    requires hpa.up.Some? && hpa.down.Some?
  {
    if up > upper then RisesTo(hpa, cur, up, next)
    else if down < lower then FallsTo(hpa, cur, down, next)
    else next == cur
  }

  /**
    CPU follows its utilization in percent and tolerates a tenth either way; memory follows its average value and
    tolerates half of it; anything else asks for nothing, which is -1.
  */
  ghost predicate MetricAsks(hpa: Hpa, m: Metric, cur: int, up: real, down: real, next: int)
    requires hpa.up.Some? && hpa.down.Some? && TargetSet(m)
  {
    if m.name == Cpu && m.targetType == Utilization then
      Follows(hpa, cur, up / (m.averageUtilization / 100.0), down / (m.averageUtilization / 100.0), 1.1, 0.9, next)
    else if m.name == Memory && m.targetType == AverageValue then
      Follows(hpa, cur, up / m.averageValue, down / m.averageValue, 1.5, 0.5, next)
    else next == -1
  }

  /** Nothing about the decision leaves int32: the ratio's count, and either policy's product. */
  predicate Modest(hpa: Hpa, cur: int, up: real, down: real)
    requires hpa.up.Some? && hpa.down.Some?
  {
    && up * cur as real <= Int32.Max as real && 0.0 <= down
    && hpa.up.value.value * cur <= Int32.Max && hpa.down.value.value * cur <= Int32.Max
  }

  predicate MetricModest(hpa: Hpa, m: Metric, cur: int, r: Reading)
    requires hpa.up.Some? && hpa.down.Some? && TargetSet(m)
  {
    Supported(m) ==> Modest(hpa, cur, Ratios(m, r).up, Ratios(m, r).down)
  }

  lemma CeilIsLeast(x: real)
    ensures LeastFrom(Ceil(x), x)
  {
  }

  lemma CeilAtMost(x: real, n: int)
    requires x <= n as real
    ensures Ceil(x) <= n
  {
  }

  lemma AllowedMoves(p: Policy, wanted: int, cur: int)
    requires p.value >= 0 && cur >= 0 && p.value * cur <= Int32.Max
    ensures MovesBy(p, wanted, cur, Allowed(p, wanted, cur))
    ensures wanted >= 0 ==> 0 <= Allowed(p, wanted, cur) <= if wanted == 0 then 1 else wanted
  {
    PercentIsFloor(p.value, cur);
  }

  /** A count above 1 times the current one leaves room for what it wants. */
  lemma RoomAbove(cur: int, ratio: real)
    requires 0 <= cur <= Int32.Max && ratio > 1.0 && ratio * cur as real <= Int32.Max as real
    ensures 0 <= WantedUp(cur, ratio) <= Int32.Max - cur && cur < Int32.Max
  {
    var gap := (ratio - 1.0) * cur as real;
    assert gap == ratio * cur as real - cur as real;
    WantedIsNatural(ratio - 1.0, cur);
    CeilAtMost(gap, Int32.Max - cur);
    if cur == Int32.Max {
      Grows(ratio - 1.0, cur as real);
    }
  }

  lemma Grows(a: real, b: real)
    requires a > 0.0 && b > 0.0
    ensures a * b > 0.0
  {
  }

  lemma UpFollows(hpa: Hpa, cur: int, ratio: real)
    requires Reasonable(hpa) && InBounds(hpa, cur) && ratio > 1.0
    requires ratio * cur as real <= Int32.Max as real && hpa.up.value.value * cur <= Int32.Max
    ensures ScaleUp(hpa, cur, ratio).Ask? && RisesTo(hpa, cur, ratio, ScaleUp(hpa, cur, ratio).replicas)
  {
    RoomAbove(cur, ratio);
    var p, wanted := hpa.up.value, WantedUp(cur, ratio);
    CeilIsLeast((ratio - 1.0) * cur as real);
    AllowedMoves(p, wanted, cur);
    WrappedSum(cur, Allowed(p, wanted, cur));
    UpTo(hpa, cur, ratio, wanted, Allowed(p, wanted, cur), ScaleUp(hpa, cur, ratio).replicas);
  }

  lemma UpTo(hpa: Hpa, cur: int, ratio: real, wanted: int, n: int, next: int)
    requires hpa.up.Some? && LeastFrom(wanted, (ratio - 1.0) * cur as real) && MovesBy(hpa.up.value, wanted, cur, n)
    requires next == if cur + n > hpa.max then hpa.max else cur + n
    ensures RisesTo(hpa, cur, ratio, next)
  {
  }

  /** A ratio between 0 and 1 wants at most the current count less. */
  lemma RoomBelow(cur: int, ratio: real)
    requires 0 <= cur <= Int32.Max && 0.0 <= ratio < 1.0
    ensures 0 <= WantedDown(cur, ratio) <= cur
  {
    var gap := (1.0 - ratio) * cur as real;
    assert gap == cur as real - ratio * cur as real;
    assert ratio * cur as real >= 0.0;
    WantedIsNatural(1.0 - ratio, cur);
    CeilAtMost(gap, cur);
  }

  lemma DownFollows(hpa: Hpa, cur: int, ratio: real)
    requires Reasonable(hpa) && InBounds(hpa, cur) && 0.0 <= ratio < 1.0 && hpa.down.value.value * cur <= Int32.Max
    ensures ScaleDown(hpa, cur, ratio).Ask? && FallsTo(hpa, cur, ratio, ScaleDown(hpa, cur, ratio).replicas)
  {
    RoomBelow(cur, ratio);
    var p, wanted := hpa.down.value, WantedDown(cur, ratio);
    CeilIsLeast((1.0 - ratio) * cur as real);
    AllowedMoves(p, wanted, cur);
    WrappedSum(cur, Allowed(p, wanted, cur));
    DownTo(hpa, cur, ratio, wanted, Allowed(p, wanted, cur), ScaleDown(hpa, cur, ratio).replicas);
  }

  lemma DownTo(hpa: Hpa, cur: int, ratio: real, wanted: int, n: int, next: int)
    requires hpa.down.Some? && LeastFrom(wanted, (1.0 - ratio) * cur as real) && MovesBy(hpa.down.value, wanted, cur, n)
    requires next == if cur - n < hpa.min then hpa.min else cur - n
    ensures FallsTo(hpa, cur, ratio, next)
  {
  }

  lemma RatiosFollow(hpa: Hpa, cur: int, ratios: Reading, upper: real, lower: real)
    requires Reasonable(hpa) && InBounds(hpa, cur) && upper > 1.0 && lower < 1.0 && Modest(hpa, cur, ratios.up, ratios.down)
    ensures var ask := ByRatios(hpa, cur, ratios, upper, lower);
            ask.Ask? && Follows(hpa, cur, ratios.up, ratios.down, upper, lower, ask.replicas)
  {
    if ratios.up > upper {
      UpFollows(hpa, cur, ratios.up);
    } else if ratios.down < lower {
      DownFollows(hpa, cur, ratios.down);
    }
  }

  /** One metric asks for exactly what it should, as long as nothing leaves int32. */
  lemma MetricFollows(hpa: Hpa, i: nat, cur: int, r: Reading)
    requires i < |hpa.metrics| && TargetsSet(hpa) && Reasonable(hpa) && InBounds(hpa, cur)
    requires TargetSet(hpa.metrics[i]) && MetricModest(hpa, hpa.metrics[i], cur, r)
    ensures AskOf(hpa, i, cur, r).Ask? && MetricAsks(hpa, hpa.metrics[i], cur, r.up, r.down, AskOf(hpa, i, cur, r).replicas)
  {
    var m := hpa.metrics[i];
    if Supported(m) {
      RatiosFollow(hpa, cur, Ratios(m, r), UpperTolerance(m), LowerTolerance(m));
    }
  }

  /** Policies and readings determine the ask. */
  lemma MovesByUnique(p: Policy, x: real, cur: int, wanted: int, n: int, wanted': int, n': int)
    requires LeastFrom(wanted, x) && LeastFrom(wanted', x) && MovesBy(p, wanted, cur, n) && MovesBy(p, wanted', cur, n')
    ensures wanted == wanted' && n == n'
  {
  }

  /** What a metric should ask for is one count. */
  lemma MetricAsksOne(hpa: Hpa, m: Metric, cur: int, up: real, down: real, a: int, b: int)
    requires hpa.up.Some? && hpa.down.Some? && TargetSet(m)
    requires MetricAsks(hpa, m, cur, up, down, a) && MetricAsks(hpa, m, cur, up, down, b)
    ensures a == b
  {
    if m.name == Cpu && m.targetType == Utilization {
      FollowsOne(hpa, cur, up / (m.averageUtilization / 100.0), down / (m.averageUtilization / 100.0), 1.1, 0.9, a, b);
    } else if m.name == Memory && m.targetType == AverageValue {
      FollowsOne(hpa, cur, up / m.averageValue, down / m.averageValue, 1.5, 0.5, a, b);
    }
  }

  lemma FollowsOne(hpa: Hpa, cur: int, up: real, down: real, upper: real, lower: real, a: int, b: int)
    requires hpa.up.Some? && hpa.down.Some?
    requires Follows(hpa, cur, up, down, upper, lower, a) && Follows(hpa, cur, up, down, upper, lower, b)
    ensures a == b
  {
    if up > upper {
      var w, n :| LeastFrom(w, (up - 1.0) * cur as real) && MovesBy(hpa.up.value, w, cur, n)
        && a == if cur + n > hpa.max then hpa.max else cur + n;
      var w', n' :| LeastFrom(w', (up - 1.0) * cur as real) && MovesBy(hpa.up.value, w', cur, n')
        && b == if cur + n' > hpa.max then hpa.max else cur + n';
      MovesByUnique(hpa.up.value, (up - 1.0) * cur as real, cur, w, n, w', n');
    } else if down < lower {
      var w, n :| LeastFrom(w, (1.0 - down) * cur as real) && MovesBy(hpa.down.value, w, cur, n)
        && a == if cur - n < hpa.min then hpa.min else cur - n;
      var w', n' :| LeastFrom(w', (1.0 - down) * cur as real) && MovesBy(hpa.down.value, w', cur, n')
        && b == if cur - n' < hpa.min then hpa.min else cur - n';
      MovesByUnique(hpa.down.value, (1.0 - down) * cur as real, cur, w, n, w', n');
    }
  }

  // ---------------------------------------------------------------------------
  // One turn
  // ---------------------------------------------------------------------------

  /** The greatest count asked for, or 0 if none is positive. */
  predicate Greatest(asks: seq<int>, n: int) {
    && n >= 0 && (n == 0 || n in asks)
    && forall i :: 0 <= i < |asks| ==> asks[i] <= n
  }

  /** The set is there, some pod matches, and the autoscaler's last decision is at least its window ago; 0 means 15 seconds. */
  predicate MayAct(s: State, t: Turn) {
    && t.hpa.target in s.replicas && t.pods > 0
    && (t.hpa.uid in s.prevAct ==>
          t.checkedAt - s.prevAct[t.hpa.uid] >= (if t.hpa.scaleWindowSeconds == 0 then 15 else t.hpa.scaleWindowSeconds) * 1_000_000_000)
  }

  /** The asks of the turn's metrics, on the averages of its samples. */
  ghost predicate AskedFor(hpa: Hpa, cur: int, samples: seq<Samples>, asks: seq<int>)
    requires hpa.up.Some? && hpa.down.Some? && TargetsSet(hpa)
  {
    && |asks| == |samples| == |hpa.metrics|
    && forall i :: 0 <= i < |asks| ==> AskedAt(hpa, hpa.metrics[i], cur, samples[i], asks[i])
  }

  ghost predicate AskedAt(hpa: Hpa, m: Metric, cur: int, samples: Samples, ask: int)
    requires hpa.up.Some? && hpa.down.Some?
  {
    TargetSet(m) && MetricAsks(hpa, m, cur, Average(samples.up), Average(samples.down), ask)
  }

  predicate TurnModest(s: State, t: Turn)
    requires WellFormed(t)
  {
    && Reasonable(t.hpa)
    && (Matches(s, t) ==>
          && InBounds(t.hpa, s.replicas[t.hpa.target])
          && forall i :: 0 <= i < |t.samples| ==> ModestAt(t, i, s.replicas[t.hpa.target]))
  }

  predicate ModestAt(t: Turn, i: nat, cur: int)
    requires WellFormed(t) && i < |t.samples| && t.hpa.up.Some? && t.hpa.down.Some?
  {
    TargetSet(t.hpa.metrics[i]) && MetricModest(t.hpa, t.hpa.metrics[i], cur, Readings(t.samples)[i])
  }

  function CountOf(a: Ask): int {
    if a.Ask? then a.replicas else 0
  }

  function Counts(asks: seq<Ask>): (r: seq<int>)
    ensures |r| == |asks| && forall i :: 0 <= i < |r| ==> r[i] == CountOf(asks[i])
  {
    seq(|asks|, i requires 0 <= i < |asks| => CountOf(asks[i]))
  }

  lemma MostIsGreatest(asks: seq<Ask>)
    requires NonePanics(asks)
    ensures MaxAsk(asks, |asks|).Ask? && Greatest(Counts(asks), MaxAsk(asks, |asks|).replicas)
  {
    GreatestAskWins(asks, |asks|);
    assert asks[..|asks|] == asks;
    var most := MaxAsk(asks, |asks|);
    if most.replicas != 0 {
      var i :| 0 <= i < |asks| && asks[i] == most;
      assert Counts(asks)[i] == most.replicas;
    }
    forall i | 0 <= i < |asks| ensures Counts(asks)[i] <= most.replicas {
      assert asks[i].replicas <= most.replicas;
    }
  }

  lemma TurnAsks(s: State, t: Turn)
    requires WellFormed(t) && TurnModest(s, t) && Matches(s, t)
    ensures var cur := s.replicas[t.hpa.target];
            var asks := Asks(t.hpa, cur, Readings(t.samples));
            NonePanics(asks) && AskedFor(t.hpa, cur, t.samples, Counts(asks))
  {
    var cur, readings := s.replicas[t.hpa.target], Readings(t.samples);
    forall i | 0 <= i < |t.samples|
      ensures AskOf(t.hpa, i, cur, readings[i]).Ask?
      ensures AskedAt(t.hpa, t.hpa.metrics[i], cur, t.samples[i], AskOf(t.hpa, i, cur, readings[i]).replicas)
    {
      assert ModestAt(t, i, cur);
      MetricFollows(t.hpa, i, cur, readings[i]);
    }
  }

  /** What the turn writes, from the asks of its metrics. */
  ghost predicate Writes(s: State, t: Turn, s': State, asks: seq<int>, best: int)
    requires t.hpa.target in s.replicas && t.hpa.up.Some? && t.hpa.down.Some? && TargetsSet(t.hpa)
  {
    && AskedFor(t.hpa, s.replicas[t.hpa.target], t.samples, asks) && Greatest(asks, best)
    && s'.replicas == if best != 0 && t.updateOk then s.replicas[t.hpa.target := best] else s.replicas
  }

  /**
    As long as nothing leaves int32, a turn that may act records its time and writes the greatest of the counts its
    metrics ask for, if that is positive and the update gets through; any other turn changes nothing.
  */
  lemma TurnWritesGreatest(s: State, t: Turn)
    requires WellFormed(t) && TurnModest(s, t)
    ensures TurnResult(s, t).Some?
    ensures var s' := TurnResult(s, t).value;
            if MayAct(s, t)
            then s'.prevAct == s.prevAct[t.hpa.uid := t.actedAt] && exists asks, best :: Writes(s, t, s', asks, best)
            else s' == s
  {
    if Matches(s, t) {
      var cur := s.replicas[t.hpa.target];
      var asks := Asks(t.hpa, cur, Readings(t.samples));
      TurnAsks(s, t);
      MostIsGreatest(asks);
      var best := MaxAsk(asks, |asks|).replicas;
      assert s.replicas[t.hpa.target := cur] == s.replicas;
      if MayAct(s, t) {
        assert Writes(s, t, TurnResult(s, t).value, Counts(asks), best);
      }
    }
  }
}
