/** The rolling update of a service's pods, batch by batch (pkg/microservice/pilot/pilot.go). */
module RollingUpdate {
  import opened Traffic
  import opened Wrappers
  import Int32
  import Mapping = SidecarMapping
  import ProxyTypes

  type Name = string
  type Spec = string

  /** What the update can see and change: the namespace's pods, the two subsets and the virtual service over them. */
  datatype Cluster = Cluster(
    pods: map<Name, Spec>, blocked: Option<seq<Name>>, available: Option<seq<Name>>, routed: bool, finished: bool)

  datatype Call =
    | SetBlocked | SetAvailable | DropBlocked | DropAvailable | Route | Unroute | Finish
    | DeletePod(name: Name) | AddPod(name: Name, spec: Spec)

  datatype Step = Step(before: Cluster, call: Call, after: Cluster)

  /** The names deleted by a run, in order. */
  function Deletes(steps: seq<Step>): seq<Name> {
    if steps == [] then []
    else
      var last := steps[|steps| - 1].call;
      Deletes(steps[..|steps| - 1]) + if last.DeletePod? then [last.name] else []
  }

  /** The names created by a run, in order. */
  function Creates(steps: seq<Step>): seq<Name> {
    if steps == [] then []
    else
      var last := steps[|steps| - 1].call;
      Creates(steps[..|steps| - 1]) + if last.AddPod? then [last.name] else []
  }

  predicate Distinct(names: seq<Name>) {
    forall i, j :: 0 <= i < j < |names| ==> names[i] != names[j]
  }

  function Living(names: seq<Name>, pods: map<Name, Spec>): set<Name> {
    set n | n in names && n in pods
  }

  /** A pod is deleted only while it is routed no traffic and enough others, all existing, are. */
  predicate DrainedFirst(before: Cluster, name: Name, minimum: int) {
    && before.routed && before.blocked.Some? && before.available.Some?
    && name in before.blocked.value && name !in before.available.value
    && |before.available.value| >= minimum
    && forall a :: a in before.available.value ==> a in before.pods
  }

  predicate SafeStep(names: seq<Name>, minimum: int, s: Step) {
    && |Living(names, s.after.pods)| >= minimum
    && (s.call.DeletePod? ==> DrainedFirst(s.before, s.call.name, minimum))
    && (s.call.DropBlocked? || s.call.DropAvailable? ==> !s.before.routed)
  }

  predicate SafeSteps(names: seq<Name>, minimum: int, steps: seq<Step>) {
    forall s :: s in steps ==> SafeStep(names, minimum, s)
  }

  /** The pods when names[..lo] are on the new spec and names[lo..hi] are gone. */
  function PodsAt(base: map<Name, Spec>, names: seq<Name>, spec: Spec, lo: nat, hi: nat): map<Name, Spec>
    requires lo <= hi <= |names|
  {
    map n | n in base && n !in names[lo..hi] :: if n in names[..lo] then spec else base[n]
  }

  lemma DeleteOne(base: map<Name, Spec>, names: seq<Name>, spec: Spec, lo: nat, hi: nat)
    requires lo <= hi < |names| && Distinct(names) && names[hi] in base
    ensures names[hi] in PodsAt(base, names, spec, lo, hi)
    ensures PodsAt(base, names, spec, lo, hi) - {names[hi]} == PodsAt(base, names, spec, lo, hi + 1)
  {
    assert names[lo..hi + 1] == names[lo..hi] + [names[hi]];
  }

  lemma CreateOne(base: map<Name, Spec>, names: seq<Name>, spec: Spec, lo: nat, hi: nat)
    requires lo < hi <= |names| && Distinct(names) && names[lo] in base
    ensures names[lo] !in PodsAt(base, names, spec, lo, hi)
    ensures PodsAt(base, names, spec, lo, hi)[names[lo] := spec] == PodsAt(base, names, spec, lo + 1, hi)
  {
    assert names[lo..hi] == [names[lo]] + names[lo + 1..hi];
    assert names[..lo + 1] == names[..lo] + [names[lo]];
  }

  lemma {:induction false} DistinctSize(names: seq<Name>)
    requires Distinct(names)
    ensures |set n | n in names| == |names|
  {
    if names != [] {
      DistinctSize(names[1..]);
      assert names == [names[0]] + names[1..];
      assert (set n | n in names) == {names[0]} + set n | n in names[1..];
    } else {
      assert (set n | n in names) == {};
    }
  }

  /** Exactly the names of the current gap are missing. */
  lemma LivingCount(base: map<Name, Spec>, names: seq<Name>, spec: Spec, lo: nat, hi: nat)
    requires lo <= hi <= |names| && Distinct(names)
    requires forall n :: n in names ==> n in base
    ensures |Living(names, PodsAt(base, names, spec, lo, hi))| == |names| - (hi - lo)
  {
    var rest := names[..lo] + names[hi..];
    GapApart(names, lo, hi);
    DistinctSize(rest);
    assert names == names[..lo] + names[lo..hi] + names[hi..];
    assert Living(names, PodsAt(base, names, spec, lo, hi)) == set n | n in rest;
  }

  lemma GapApart(names: seq<Name>, lo: nat, hi: nat)
    requires lo <= hi <= |names| && Distinct(names)
    ensures forall n :: n in names[..lo] + names[hi..] ==> n !in names[lo..hi]
    ensures Distinct(names[..lo] + names[hi..])
  {
  }

  lemma AppendSafe(names: seq<Name>, minimum: int, steps: seq<Step>, s: Step)
    requires SafeSteps(names, minimum, steps) && SafeStep(names, minimum, s)
    ensures SafeSteps(names, minimum, steps + [s])
    ensures Deletes(steps + [s]) == Deletes(steps) + if s.call.DeletePod? then [s.call.name] else []
    ensures Creates(steps + [s]) == Creates(steps) + if s.call.AddPod? then [s.call.name] else []
  {
    assert (steps + [s])[..|steps|] == steps;
  }

  class Client {
    var cluster: Cluster
    ghost var steps: seq<Step>

    constructor (c: Cluster)
      ensures cluster == c && steps == []
    {
      cluster, steps := c, [];
    }

    /** The server accepts a subset exactly when every listed pod exists; an existing subset is overwritten. */
    method AddSubset(blocked: bool, names: seq<Name>) returns (ok: bool)
      modifies this
      ensures ok == forall n :: n in names ==> n in old(cluster).pods
      ensures !ok ==> cluster == old(cluster) && steps == old(steps)
      ensures ok ==>
                && cluster == (if blocked then old(cluster).(blocked := Some(names)) else old(cluster).(available := Some(names)))
                && steps == old(steps) + [Step(old(cluster), if blocked then SetBlocked else SetAvailable, cluster)]
    {
      ok := true;
      for i := 0 to |names|
        invariant ok && forall k :: 0 <= k < i ==> names[k] in cluster.pods
        invariant cluster == old(cluster) && steps == old(steps)
      {
        if names[i] !in cluster.pods {
          return false;
        }
      }
      ghost var before := cluster;
      cluster := if blocked then cluster.(blocked := Some(names)) else cluster.(available := Some(names));
      steps := steps + [Step(before, if blocked then SetBlocked else SetAvailable, cluster)];
    }

    method DeleteSubset(blocked: bool) returns (ok: bool)
      modifies this
      ensures ok == if blocked then old(cluster).blocked.Some? else old(cluster).available.Some?
      ensures cluster == if blocked then old(cluster).(blocked := None) else old(cluster).(available := None)
      ensures !ok ==> steps == old(steps)
      ensures ok ==> steps == old(steps) + [Step(old(cluster), if blocked then DropBlocked else DropAvailable, cluster)]
    {
      if (if blocked then cluster.blocked.None? else cluster.available.None?) {
        return false;
      }
      ghost var before := cluster;
      cluster := if blocked then cluster.(blocked := None) else cluster.(available := None);
      steps := steps + [Step(before, if blocked then DropBlocked else DropAvailable, cluster)];
      return true;
    }

    method SetRouted(routed: bool)
      modifies this
      ensures cluster == old(cluster).(routed := routed)
      ensures steps == old(steps) + [Step(old(cluster), if routed then Route else Unroute, cluster)]
    {
      ghost var before := cluster;
      cluster := cluster.(routed := routed);
      steps := steps + [Step(before, if routed then Route else Unroute, cluster)];
    }

    method SetFinished(finished: bool)
      modifies this
      ensures cluster == old(cluster).(finished := finished)
      ensures steps == old(steps) + [Step(old(cluster), Finish, cluster)]
    {
      ghost var before := cluster;
      cluster := cluster.(finished := finished);
      steps := steps + [Step(before, Finish, cluster)];
    }

    method DeletePod(name: Name) returns (ok: bool)
      modifies this
      ensures ok == (name in old(cluster).pods)
      ensures !ok ==> cluster == old(cluster) && steps == old(steps)
      ensures ok ==>
                && cluster == old(cluster).(pods := old(cluster).pods - {name})
                && steps == old(steps) + [Step(old(cluster), Call.DeletePod(name), cluster)]
    {
      if name !in cluster.pods {
        return false;
      }
      ghost var before := cluster;
      cluster := cluster.(pods := cluster.pods - {name});
      steps := steps + [Step(before, Call.DeletePod(name), cluster)];
      return true;
    }

    method AddPod(name: Name, spec: Spec) returns (ok: bool)
      modifies this
      ensures ok == (name !in old(cluster).pods)
      ensures !ok ==> cluster == old(cluster) && steps == old(steps)
      ensures ok ==>
                && cluster == old(cluster).(pods := old(cluster).pods[name := spec])
                && steps == old(steps) + [Step(old(cluster), Call.AddPod(name, spec), cluster)]
    {
      if name in cluster.pods {
        return false;
      }
      ghost var before := cluster;
      cluster := cluster.(pods := cluster.pods[name := spec]);
      steps := steps + [Step(before, Call.AddPod(name, spec), cluster)];
      return true;
    }
  }

  /** The names of one round: the batch names[i..j] is blocked, the others stay available. */
  method SplitNames(names: seq<Name>, i: nat, j: nat) returns (blocked: seq<Name>, available: seq<Name>)
    requires i <= j <= |names|
    ensures blocked == names[i..j]
    ensures available == names[..i] + names[j..]
  {
    blocked, available := [], [];
    for k := 0 to |names|
      invariant blocked == (if k <= i then [] else if k <= j then names[i..k] else names[i..j])
      invariant available == (if k <= i then names[..k] else if k <= j then names[..i] else names[..i] + names[j..k])
    {
      if i <= k < j {
        blocked := blocked + [names[k]];
      } else {
        available := available + [names[k]];
      }
    }
  }

  lemma NamesExist(base: map<Name, Spec>, names: seq<Name>, spec: Spec, i: nat, part: seq<Name>)
    requires i <= |names| && forall n :: n in names ==> n in base
    requires forall n :: n in part ==> n in names
    ensures forall n :: n in part ==> n in PodsAt(base, names, spec, i, i)
  {
  }

  /**
    Where names[d] is replaced: its batch goes from the last multiple of the batch size up to the next one, or to
    the end; the batch is blocked, everybody else is available, and the earlier batches are on the new spec.
  */
  ghost predicate ReplacedInRound(base: map<Name, Spec>, names: seq<Name>, spec: Spec, minimum: int, d: nat, s: Step)
    requires d < |names| && minimum < |names|
  {
    var size := |names| - minimum;
    var i := d - d % size;
    var j := if i + size > |names| then |names| else i + size;
    && i <= d < j
    && s.before.routed && s.before.blocked == Some(names[i..j]) && s.before.available == Some(names[..i] + names[j..])
    && (s.call.DeletePod? ==> s.before.pods == PodsAt(base, names, spec, i, d))
    && (s.call.AddPod? ==> s.call.spec == spec && s.before.pods == PodsAt(base, names, spec, d, j))
  }

  ghost predicate StepInRound(base: map<Name, Spec>, names: seq<Name>, spec: Spec, minimum: int, s: Step)
    requires minimum < |names|
  {
    forall d :: 0 <= d < |names| && (s.call == DeletePod(names[d]) || s.call == AddPod(names[d], spec)) ==>
      ReplacedInRound(base, names, spec, minimum, d, s)
  }

  /** Every deletion and creation of a run happens in its pod's round, and creations are on the new spec. */
  ghost predicate InRounds(base: map<Name, Spec>, names: seq<Name>, spec: Spec, minimum: int, steps: seq<Step>)
    requires minimum < |names|
  {
    forall s :: s in steps ==> (s.call.AddPod? ==> s.call.spec == spec) && StepInRound(base, names, spec, minimum, s)
  }

  /** The batch of a round. */
  predicate IsBatch(names: seq<Name>, minimum: int, i: nat, j: nat) {
    minimum < |names| && i < j <= |names| && i % (|names| - minimum) == 0 && j == BatchEnd(|names|, minimum, i)
  }

  lemma BatchStart(size: nat, i: nat, d: nat)
    requires size > 0 && i % size == 0 && i <= d < i + size
    ensures d - d % size == i
  {
    assert d == size * (i / size) + (d - i) by { assert i == size * (i / size); }
    QuotientIs(d, size, i / size, d - i);
  }

  lemma QuotientIs(d: nat, size: nat, q: nat, rest: nat)
    requires size > 0 && d == size * q + rest && rest < size
    ensures d % size == rest
  {
    var k := d / size;
    assert d == size * k + d % size;
    if k < q {
      Gap(size, k, q);
      assert false;
    } else if k > q {
      Gap(size, q, k);
      assert false;
    }
  }

  lemma Gap(size: nat, a: nat, b: nat)
    requires a < b
    ensures size * b >= size * a + size
  {
    assert size * b == size * a + size * (b - a);
    assert size * (b - a) >= size * 1 by {
      if b - a > 1 { Int32.NonNegativeProduct(size, b - a - 1); }
      assert size * (b - a) == size * (b - a - 1) + size;
    }
  }

  lemma SameName(names: seq<Name>, d: nat, e: nat)
    requires Distinct(names) && d < |names| && e < |names| && names[d] == names[e]
    ensures d == e
  {
  }

  lemma MoreInRounds(base: map<Name, Spec>, names: seq<Name>, spec: Spec, minimum: int, steps: seq<Step>, s: Step)
    requires minimum < |names| && InRounds(base, names, spec, minimum, steps)
    requires (s.call.AddPod? ==> s.call.spec == spec) && StepInRound(base, names, spec, minimum, s)
    ensures InRounds(base, names, spec, minimum, steps + [s])
  {
  }

  lemma DeletedInRound(c: Cluster, base: map<Name, Spec>, names: seq<Name>, spec: Spec, minimum: int, i: nat, d: nat, j: nat)
    requires IsBatch(names, minimum, i, j) && i <= d < j && Distinct(names)
    requires c.routed && c.pods == PodsAt(base, names, spec, i, d) && Drained(c, names, i, j)
    ensures StepInRound(base, names, spec, minimum, Step(c, DeletePod(names[d]), c.(pods := c.pods - {names[d]})))
  {
    BatchStart(|names| - minimum, i, d);
    forall e: nat | e < |names| && names[e] == names[d] ensures e == d {
      SameName(names, e, d);
    }
  }

  lemma CreatedInRound(c: Cluster, base: map<Name, Spec>, names: seq<Name>, spec: Spec, minimum: int, i: nat, d: nat, j: nat)
    requires IsBatch(names, minimum, i, j) && i <= d < j && Distinct(names)
    requires c.routed && c.pods == PodsAt(base, names, spec, d, j) && Drained(c, names, i, j)
    ensures StepInRound(base, names, spec, minimum, Step(c, AddPod(names[d], spec), c.(pods := c.pods[names[d] := spec])))
  {
    BatchStart(|names| - minimum, i, d);
    forall e: nat | e < |names| && names[e] == names[d] ensures e == d {
      SameName(names, e, d);
    }
  }

  /** Of the steps so far: all safe, all in their rounds, names[..hi] deleted and names[..lo] re-created, in order. */
  ghost predicate Logged(steps: seq<Step>, base: map<Name, Spec>, names: seq<Name>, spec: Spec, minimum: int, lo: nat, hi: nat)
    requires lo <= hi <= |names|
  {
    && minimum < |names|
    && SafeSteps(names, minimum, steps) && InRounds(base, names, spec, minimum, steps)
    && Deletes(steps) == names[..hi] && Creates(steps) == names[..lo]
  }

  lemma LogDeletion(steps: seq<Step>, base: map<Name, Spec>, names: seq<Name>, spec: Spec, minimum: int, lo: nat, hi: nat, s: Step)
    requires lo <= hi < |names| && Logged(steps, base, names, spec, minimum, lo, hi) && s.call == DeletePod(names[hi])
    requires SafeStep(names, minimum, s) && StepInRound(base, names, spec, minimum, s)
    ensures Logged(steps + [s], base, names, spec, minimum, lo, hi + 1)
  {
    AppendSafe(names, minimum, steps, s);
    MoreInRounds(base, names, spec, minimum, steps, s);
    assert names[..hi + 1] == names[..hi] + [names[hi]] && names[..lo] + [] == names[..lo];
  }

  lemma LogCreation(steps: seq<Step>, base: map<Name, Spec>, names: seq<Name>, spec: Spec, minimum: int, lo: nat, hi: nat, s: Step)
    requires lo < hi <= |names| && Logged(steps, base, names, spec, minimum, lo, hi) && s.call == AddPod(names[lo], spec)
    requires SafeStep(names, minimum, s) && StepInRound(base, names, spec, minimum, s)
    ensures Logged(steps + [s], base, names, spec, minimum, lo + 1, hi)
  {
    AppendSafe(names, minimum, steps, s);
    MoreInRounds(base, names, spec, minimum, steps, s);
    assert names[..lo + 1] == names[..lo] + [names[lo]] && names[..hi] + [] == names[..hi];
  }

  lemma LogOther(steps: seq<Step>, base: map<Name, Spec>, names: seq<Name>, spec: Spec, minimum: int, lo: nat, hi: nat, s: Step)
    requires lo <= hi <= |names| && Logged(steps, base, names, spec, minimum, lo, hi)
    requires !s.call.DeletePod? && !s.call.AddPod? && SafeStep(names, minimum, s)
    ensures Logged(steps + [s], base, names, spec, minimum, lo, hi)
  {
    AppendSafe(names, minimum, steps, s);
    MoreInRounds(base, names, spec, minimum, steps, s);
    assert names[..lo] + [] == names[..lo] && names[..hi] + [] == names[..hi];
  }

  /** What holds of the client between two calls of a run. */
  ghost predicate Running(c: Cluster, steps: seq<Step>, base: map<Name, Spec>, names: seq<Name>, spec: Spec, minimum: int, lo: nat, hi: nat)
    requires lo <= hi <= |names|
  {
    c.pods == PodsAt(base, names, spec, lo, hi) && c.routed && Logged(steps, base, names, spec, minimum, lo, hi)
  }

  /** The subsets of the round that replaces names[i..j]. */
  predicate Drained(c: Cluster, names: seq<Name>, i: nat, j: nat)
    requires i <= j <= |names|
  {
    c.blocked == Some(names[i..j]) && c.available == Some(names[..i] + names[j..])
  }

  lemma BatchIsDrained(c: Cluster, base: map<Name, Spec>, names: seq<Name>, spec: Spec, minimum: int, i: nat, d: nat, j: nat)
    requires i <= d < j <= |names| && Distinct(names) && j - i <= |names| - minimum
    requires forall n :: n in names ==> n in base
    requires c.routed && c.pods == PodsAt(base, names, spec, i, d) && Drained(c, names, i, j)
    ensures DrainedFirst(c, names[d], minimum)
  {
    GapApart(names, i, j);
    assert names[i..j][d - i] == names[d];
    forall a | a in c.available.value ensures a in c.pods {
      assert a !in names[i..j];
      assert forall n :: n in names[i..d] ==> n in names[i..j];
    }
  }

  lemma DeleteIsSafe(c: Cluster, steps: seq<Step>, base: map<Name, Spec>, names: seq<Name>, spec: Spec, minimum: int, i: nat, d: nat, j: nat)
    requires i <= d < j <= |names| && Distinct(names) && j - i <= |names| - minimum
    requires forall n :: n in names ==> n in base
    requires Running(c, steps, base, names, spec, minimum, i, d) && Drained(c, names, i, j) && IsBatch(names, minimum, i, j)
    ensures names[d] in c.pods
    ensures var after := c.(pods := c.pods - {names[d]});
            Running(after, steps + [Step(c, DeletePod(names[d]), after)], base, names, spec, minimum, i, d + 1)
  {
    var after := c.(pods := c.pods - {names[d]});
    DeleteOne(base, names, spec, i, d);
    DeleteStepIsSafe(c, base, names, spec, minimum, i, d, j);
    DeletedInRound(c, base, names, spec, minimum, i, d, j);
    LogDeletion(steps, base, names, spec, minimum, i, d, Step(c, DeletePod(names[d]), after));
  }

  lemma DeleteStepIsSafe(c: Cluster, base: map<Name, Spec>, names: seq<Name>, spec: Spec, minimum: int, i: nat, d: nat, j: nat)
    requires i <= d < j <= |names| && Distinct(names) && j - i <= |names| - minimum
    requires forall n :: n in names ==> n in base
    requires c.routed && c.pods == PodsAt(base, names, spec, i, d) && Drained(c, names, i, j)
    ensures SafeStep(names, minimum, Step(c, DeletePod(names[d]), c.(pods := c.pods - {names[d]})))
  {
    DeleteOne(base, names, spec, i, d);
    LivingCount(base, names, spec, i, d + 1);
    BatchIsDrained(c, base, names, spec, minimum, i, d, j);
  }

  lemma CreateIsSafe(c: Cluster, steps: seq<Step>, base: map<Name, Spec>, names: seq<Name>, spec: Spec, minimum: int, i: nat, lo: nat, hi: nat)
    requires i <= lo < hi <= |names| && Distinct(names) && hi - lo <= |names| - minimum + 1
    requires forall n :: n in names ==> n in base
    requires Running(c, steps, base, names, spec, minimum, lo, hi) && Drained(c, names, i, hi) && IsBatch(names, minimum, i, hi)
    ensures names[lo] !in c.pods
    ensures var after := c.(pods := c.pods[names[lo] := spec]);
            Running(after, steps + [Step(c, AddPod(names[lo], spec), after)], base, names, spec, minimum, lo + 1, hi)
  {
    var after := c.(pods := c.pods[names[lo] := spec]);
    CreateOne(base, names, spec, lo, hi);
    LivingCount(base, names, spec, lo + 1, hi);
    CreatedInRound(c, base, names, spec, minimum, i, lo, hi);
    LogCreation(steps, base, names, spec, minimum, lo, hi, Step(c, AddPod(names[lo], spec), after));
  }

  lemma OtherIsSafe(c: Cluster, steps: seq<Step>, base: map<Name, Spec>, names: seq<Name>, spec: Spec, minimum: int, i: nat, call: Call, after: Cluster)
    requires i <= |names| && Distinct(names) && minimum < |names|
    requires forall n :: n in names ==> n in base
    requires c.pods == PodsAt(base, names, spec, i, i) == after.pods
    requires Logged(steps, base, names, spec, minimum, i, i)
    requires !call.DeletePod? && !call.AddPod? && (call.DropBlocked? || call.DropAvailable? ==> !c.routed)
    ensures Logged(steps + [Step(c, call, after)], base, names, spec, minimum, i, i)
  {
    LivingCount(base, names, spec, i, i);
    LogOther(steps, base, names, spec, minimum, i, i, Step(c, call, after));
  }

  predicate Extends(before: seq<Step>, after: seq<Step>) {
    before <= after
  }

  /** The calls that move the traffic away from the batch. */
  method BlockBatch(client: Client, names: seq<Name>, i: nat, blocked: seq<Name>, available: seq<Name>, ghost newSpec: Spec, ghost minimum: int, ghost base: map<Name, Spec>)
    requires i <= |names| && Distinct(names) && minimum < |names|
    requires forall n :: n in names ==> n in base
    requires forall n :: n in blocked + available ==> n in names
    requires Running(client.cluster, client.steps, base, names, newSpec, minimum, i, i)
    modifies client
    ensures Running(client.cluster, client.steps, base, names, newSpec, minimum, i, i)
    ensures client.cluster == old(client.cluster).(blocked := Some(blocked), available := Some(available))
    ensures Extends(old(client.steps), client.steps) && |old(client.steps)| < |client.steps|
    ensures client.steps[|old(client.steps)|].after == old(client.cluster).(blocked := Some(blocked))
  {
    ghost var c, steps := client.cluster, client.steps;
    NamesExist(base, names, newSpec, i, blocked);
    NamesExist(base, names, newSpec, i, available);
    var ok := client.AddSubset(true, blocked);
    OtherIsSafe(c, steps, base, names, newSpec, minimum, i, SetBlocked, client.cluster);
    c, steps := client.cluster, client.steps;
    ok := client.AddSubset(false, available);
    OtherIsSafe(c, steps, base, names, newSpec, minimum, i, SetAvailable, client.cluster);
  }

  method DeleteBatch(client: Client, names: seq<Name>, i: nat, j: nat, blocked: seq<Name>, ghost newSpec: Spec, ghost minimum: int, ghost base: map<Name, Spec>)
    requires i <= j <= |names| && Distinct(names) && j - i <= |names| - minimum
    requires forall n :: n in names ==> n in base
    requires |blocked| == j - i && forall k :: 0 <= k < |blocked| ==> blocked[k] == names[i + k]
    requires Drained(client.cluster, names, i, j) && IsBatch(names, minimum, i, j)
    requires Running(client.cluster, client.steps, base, names, newSpec, minimum, i, i)
    modifies client
    ensures Running(client.cluster, client.steps, base, names, newSpec, minimum, i, j)
    ensures Drained(client.cluster, names, i, j) && Extends(old(client.steps), client.steps)
  {
    for k := 0 to |blocked|
      invariant Extends(old(client.steps), client.steps)
      invariant Running(client.cluster, client.steps, base, names, newSpec, minimum, i, i + k)
      invariant Drained(client.cluster, names, i, j)
    {
      ghost var d := i + k;
      DeleteNext(client, names, i, d, j, blocked[k], newSpec, minimum, base);
    }
  }

  method DeleteNext(client: Client, ghost names: seq<Name>, ghost i: nat, ghost d: nat, ghost j: nat, name: Name, ghost newSpec: Spec, ghost minimum: int, ghost base: map<Name, Spec>)
    requires i <= d < j <= |names| && Distinct(names) && j - i <= |names| - minimum
    requires forall n :: n in names ==> n in base
    requires name == names[d] && Drained(client.cluster, names, i, j) && IsBatch(names, minimum, i, j)
    requires Running(client.cluster, client.steps, base, names, newSpec, minimum, i, d)
    modifies client
    ensures Running(client.cluster, client.steps, base, names, newSpec, minimum, i, d + 1)
    ensures Drained(client.cluster, names, i, j) && Extends(old(client.steps), client.steps)
  {
    DeleteIsSafe(client.cluster, client.steps, base, names, newSpec, minimum, i, d, j);
    var ok := client.DeletePod(name);
  }

  method CreateBatch(client: Client, names: seq<Name>, i: nat, j: nat, newSpec: Spec, ghost minimum: int, ghost base: map<Name, Spec>)
    requires i <= j <= |names| && Distinct(names) && j - i <= |names| - minimum
    requires forall n :: n in names ==> n in base
    requires Running(client.cluster, client.steps, base, names, newSpec, minimum, i, j)
    requires Drained(client.cluster, names, i, j) && IsBatch(names, minimum, i, j)
    modifies client
    ensures Running(client.cluster, client.steps, base, names, newSpec, minimum, j, j)
    ensures Extends(old(client.steps), client.steps)
  {
    for k := i to j
      invariant Extends(old(client.steps), client.steps)
      invariant Running(client.cluster, client.steps, base, names, newSpec, minimum, k, j) && Drained(client.cluster, names, i, j)
    {
      CreateIsSafe(client.cluster, client.steps, base, names, newSpec, minimum, i, k, j);
      var ok := client.AddPod(names[k], newSpec);
    }
  }

  /**
   * The whole update of the pods the pilot saw running. Every call keeps at least minimumAlive of them, a pod is
   * deleted only after the traffic moved to at least minimumAlive others, each pod is deleted and re-created in the
   * round of its batch, while exactly the batch is blocked and all others are available, and in the end each one was deleted once
   * and re-created once, on the new spec, and the subsets are gone, after the virtual service over them.
   */
  method RollingUpdateWorkerLoop(client: Client, names: seq<Name>, minimumAlive: int, newSpec: Spec, routeAccepted: bool)
    requires Distinct(names) && forall n :: n in names ==> n in client.cluster.pods
    requires client.steps == []
    modifies client
    ensures minimumAlive >= |names| ==> client.cluster == old(client.cluster) && client.steps == []
    ensures minimumAlive < |names| ==>
              SafeSteps(names, minimumAlive, client.steps)
              && InRounds(old(client.cluster.pods), names, newSpec, minimumAlive, client.steps)
    ensures minimumAlive < |names| && !routeAccepted ==>
              client.cluster.pods == old(client.cluster.pods) && Deletes(client.steps) == Creates(client.steps) == []
    ensures minimumAlive < |names| && routeAccepted ==>
              && Deletes(client.steps) == names && Creates(client.steps) == names
              && client.cluster.pods.Keys == old(client.cluster.pods).Keys
              && (forall n :: n in client.cluster.pods ==>
                    client.cluster.pods[n] == if n in names then newSpec else old(client.cluster.pods)[n])
              && client.cluster.finished && !client.cluster.routed
              && client.cluster.blocked.None? && client.cluster.available.None?
              && (names != [] ==> exists k :: 0 <= k < |client.steps| && FirstBlock(client.steps[k].after, names, minimumAlive))
  {
    var updateNum := |names| - minimumAlive;
    if updateNum <= 0 {
      return;
    }
    ghost var base := client.cluster.pods;
    BeforeAll(base, names, newSpec);
    Start(client, names, minimumAlive, newSpec, base);
    if !routeAccepted {
      return;
    }
    ghost var c, steps := client.cluster, client.steps;
    client.SetRouted(true);
    OtherIsSafe(c, steps, base, names, newSpec, minimumAlive, 0, Route, client.cluster);
    ghost var first := |client.steps|;
    Rounds(client, names, updateNum, newSpec, minimumAlive, base);
    ghost var rounds := client.steps;
    CleanUp(client, names, newSpec, minimumAlive, base);
    AfterAll(base, names, newSpec);
    assert names != [] ==> client.steps[first] == rounds[first] && FirstBlock(client.steps[first].after, names, minimumAlive);
  }

  lemma BeforeAll(base: map<Name, Spec>, names: seq<Name>, spec: Spec)
    ensures PodsAt(base, names, spec, 0, 0) == base
  {
    assert names[0..0] == [] && names[..0] == [];
  }

  lemma AfterAll(base: map<Name, Spec>, names: seq<Name>, spec: Spec)
    ensures var pods := PodsAt(base, names, spec, |names|, |names|);
            pods.Keys == base.Keys && forall n :: n in pods ==> pods[n] == if n in names then spec else base[n]
    ensures names[..|names|] == names
  {
    assert names[|names|..|names|] == [];
  }

  /** The virtual service is there, the first batch is blocked, and nobody is available yet. */
  predicate FirstBlock(c: Cluster, names: seq<Name>, minimumAlive: int)
    requires minimumAlive < |names|
  {
    c.routed && c.available == Some([]) && c.blocked == Some(names[..BatchEnd(|names|, minimumAlive, 0)])
  }

  /** The loop over the batches. */
  method Rounds(client: Client, names: seq<Name>, updateNum: int, newSpec: Spec, ghost minimum: int, ghost base: map<Name, Spec>)
    requires Distinct(names) && updateNum == |names| - minimum > 0
    requires forall n :: n in names ==> n in base
    requires Running(client.cluster, client.steps, base, names, newSpec, minimum, 0, 0)
    modifies client
    ensures Running(client.cluster, client.steps, base, names, newSpec, minimum, |names|, |names|)
    ensures names != [] ==>
              && |old(client.steps)| < |client.steps|
              && client.steps[|old(client.steps)|].after == old(client.cluster).(blocked := Some(names[..BatchEnd(|names|, minimum, 0)]))
  {
    var i := 0;
    ghost var c, first := client.cluster, |client.steps|;
    while i < |names|
      invariant 0 <= i && first <= |client.steps| && i % updateNum == 0
      invariant i == 0 ==> client.cluster == c && first == |client.steps|
      invariant i > 0 ==>
                  && first < |client.steps|
                  && client.steps[first].after == c.(blocked := Some(names[..BatchEnd(|names|, minimum, 0)]))
      invariant Running(client.cluster, client.steps, base, names, newSpec, minimum, Least(i, |names|), Least(i, |names|))
      decreases |names| - i
    {
      var j := if i + updateNum > |names| then |names| else i + updateNum;
      Round(client, names, i, j, newSpec, minimum, base);
      assert i == 0 ==> names[i..j] == names[..BatchEnd(|names|, minimum, 0)];
      NextMultiple(i, updateNum);
      i := i + updateNum;
    }
  }

  lemma NextMultiple(i: nat, size: nat)
    requires size > 0 && i % size == 0
    ensures (i + size) % size == 0
  {
    QuotientIs(i + size, size, i / size + 1, 0);
  }

  /** One turn of the loop: the batch names[i..j] is blocked, deleted and created again. */
  method Round(client: Client, names: seq<Name>, i: nat, j: nat, newSpec: Spec, ghost minimum: int, ghost base: map<Name, Spec>)
    requires IsBatch(names, minimum, i, j) && Distinct(names)
    requires forall n :: n in names ==> n in base
    requires Running(client.cluster, client.steps, base, names, newSpec, minimum, i, i)
    modifies client
    ensures Running(client.cluster, client.steps, base, names, newSpec, minimum, j, j)
    ensures Extends(old(client.steps), client.steps) && |old(client.steps)| < |client.steps|
    ensures client.steps[|old(client.steps)|].after == old(client.cluster).(blocked := Some(names[i..j]))
  {
    var blocked, available := SplitNames(names, i, j);
    BlockBatch(client, names, i, blocked, available, newSpec, minimum, base);
    DeleteBatch(client, names, i, j, blocked, newSpec, minimum, base);
    CreateBatch(client, names, i, j, newSpec, minimum, base);
  }

  /** The status, the virtual service and the two subsets after the last round. */
  method CleanUp(client: Client, names: seq<Name>, newSpec: Spec, ghost minimum: int, ghost base: map<Name, Spec>)
    requires Distinct(names) && minimum < |names|
    requires forall n :: n in names ==> n in base
    requires Running(client.cluster, client.steps, base, names, newSpec, minimum, |names|, |names|)
    modifies client
    ensures client.cluster == old(client.cluster).(finished := true, routed := false, blocked := None, available := None)
    ensures Logged(client.steps, base, names, newSpec, minimum, |names|, |names|) && Extends(old(client.steps), client.steps)
  {
    ghost var c, steps := client.cluster, client.steps;
    client.SetFinished(true);
    OtherIsSafe(c, steps, base, names, newSpec, minimum, |names|, Finish, client.cluster);
    c, steps := client.cluster, client.steps;
    client.SetRouted(false);
    OtherIsSafe(c, steps, base, names, newSpec, minimum, |names|, Unroute, client.cluster);
    c, steps := client.cluster, client.steps;
    var ok := client.DeleteSubset(true);
    OtherIsSafe(c, steps, base, names, newSpec, minimum, |names|, DropBlocked, client.cluster);
    c, steps := client.cluster, client.steps;
    ok := client.DeleteSubset(false);
    OtherIsSafe(c, steps, base, names, newSpec, minimum, |names|, DropAvailable, client.cluster);
  }

  function Least(a: nat, b: nat): nat {
    if a < b then a else b
  }

  /** The calls before the first round: the status and two empty subsets. */
  method Start(client: Client, names: seq<Name>, minimumAlive: int, newSpec: Spec, ghost base: map<Name, Spec>)
    requires Distinct(names) && minimumAlive < |names| && client.steps == []
    requires forall n :: n in names ==> n in base
    requires client.cluster.pods == base == PodsAt(base, names, newSpec, 0, 0)
    modifies client
    ensures client.cluster.pods == base && client.cluster.available == Some([])
    ensures Logged(client.steps, base, names, newSpec, minimumAlive, 0, 0)
  {
    ghost var c, steps := client.cluster, client.steps;
    assert names[..0] == [];
    client.SetFinished(false);
    OtherIsSafe(c, steps, base, names, newSpec, minimumAlive, 0, Finish, client.cluster);
    c, steps := client.cluster, client.steps;
    var ok := client.AddSubset(true, []);
    OtherIsSafe(c, steps, base, names, newSpec, minimumAlive, 0, SetBlocked, client.cluster);
    c, steps := client.cluster, client.steps;
    ok := client.AddSubset(false, []);
    OtherIsSafe(c, steps, base, names, newSpec, minimumAlive, 0, SetAvailable, client.cluster);
  }

  /** The batch of the round that starts at i ends here. */
  function BatchEnd(n: nat, minimumAlive: int, i: nat): nat
    requires minimumAlive < n
  {
    Least(i + (n - minimumAlive), n)
  }

  // ---------------------------------------------------------------------------
  // The traffic while the virtual service is there
  // ---------------------------------------------------------------------------

  /** The virtual service over the two subsets: all weight on the available one. */
  function UpdateService(namespace: string, service: string, port: int): Mapping.VirtualService {
    Mapping.VirtualService(namespace, service, port,
      [Mapping.VsSubset(service + "-available", None, Some(1)), Mapping.VsSubset(service + "-blocked", None, Some(0))])
  }

  predicate IsUpdateService(vs: Mapping.VirtualService) {
    vs == UpdateService(vs.namespace, vs.serviceRef, vs.port)
  }

  /** What one iteration of the pilot reads: the update's subsets among others, and the endpoints of the running pods. */
  datatype View = View(cluster: Cluster, store: Mapping.SubsetStore, byName: Mapping.ByName)

  /** The view holds both subsets, no longer than an int32 can tell. */
  predicate Shows(v: View, vs: Mapping.VirtualService) {
    && IsUpdateService(vs) && v.cluster.available.Some? && v.cluster.blocked.Some?
    && Mapping.Listed(vs, v.store, 0) == v.cluster.available.value
    && Mapping.Listed(vs, v.store, 1) == v.cluster.blocked.value
    && |v.cluster.available.value| <= Int32.Max && |v.cluster.blocked.value| <= Int32.Max
  }

  function EntriesIn(v: View, vs: Mapping.VirtualService, targetPort: int): seq<SidecarEndpoints>
    requires IsUpdateService(vs)
  {
    Mapping.VsEntries(v.byName, vs, v.store, targetPort, 2)
  }

  /** Envoy's draw neither fails nor panics. */
  predicate CanDraw(entries: seq<SidecarEndpoints>) {
    AllWeighted(entries) && Int32.Wrap(TotalWeight(entries)) > 0
  }

  /** What the weights add up to: the blocked pods' number for each endpoint of an available one. */
  function Draws(v: View, targetPort: int): int
    requires v.cluster.available.Some? && v.cluster.blocked.Some?
  {
    var blocked := |v.cluster.blocked.value|;
    (if blocked == 0 then 1 else blocked) * Count(Mapping.GroupOf(v.byName, v.cluster.available.value, targetPort))
  }

  lemma PublishedDraws(v: View, vs: Mapping.VirtualService, targetPort: int)
    requires Shows(v, vs)
    ensures AllWeighted(EntriesIn(v, vs, targetPort)) && TotalWeight(EntriesIn(v, vs, targetPort)) == Draws(v, targetPort)
  {
    var groups, computed := Mapping.GroupsOf(v.byName, vs, v.store, targetPort), Mapping.ComputedWeights(vs, v.store);
    Mapping.EntriesArePublished(v.byName, vs, v.store, targetPort);
    PublishedWeighted(computed, groups, 2);
    PublishedTotals(computed, groups, 2);
    UpdateWeights(v, vs);
    GivenOfTwo(computed, groups);
  }

  /** The computed weights: 1 times the blocked pods' number, and 0. */
  lemma UpdateWeights(v: View, vs: Mapping.VirtualService)
    requires Shows(v, vs)
    ensures var blocked := |v.cluster.blocked.value|;
            Mapping.ComputedWeights(vs, v.store) == [if blocked == 0 then 1 else blocked, 0]
  {
    var sizes := Mapping.SizesOf(vs, v.store, 2);
    var blocked := |v.cluster.blocked.value|;
    assert Mapping.AllWeights(vs) == [1, 0];
    assert Product(sizes, 0, 1) == 1;
    assert Product(sizes, 0, 2) == if blocked == 0 then 1 else 1 * blocked;
    assert RealWeight([1, 0], sizes, 0) == Product(sizes, 0, 2);
    assert RealWeight([1, 0], sizes, 1) == 0 * Product(sizes, 1, 2) == 0;
  }

  lemma GivenOfTwo(computed: seq<int>, groups: seq<Group>)
    requires |computed| == |groups| == 2 && computed[1] == 0
    ensures Given(computed, groups, 2) == computed[0] * Count(groups[0])
  {
    assert Given(computed, groups, 1) == Given(computed, groups, 0) + computed[0] * Count(groups[0]);
  }

  /**
   * Whatever the subsets list and whichever pods run, envoy can draw if and only if the int32 sum of the weights is
   * positive; as long as the sum does not leave int32, if and only if some available pod has an endpoint.
   */
  lemma TrafficIff(v: View, vs: Mapping.VirtualService, targetPort: int)
    requires Shows(v, vs)
    ensures CanDraw(EntriesIn(v, vs, targetPort)) <==> Int32.Wrap(Draws(v, targetPort)) > 0
    ensures Draws(v, targetPort) <= Int32.Max ==>
              (CanDraw(EntriesIn(v, vs, targetPort)) <==> Mapping.SomeAnswers(v.byName, v.cluster.available.value, targetPort))
  {
    PublishedDraws(v, vs, targetPort);
    DrawsPositive(v, targetPort);
  }

  lemma DrawsPositive(v: View, targetPort: int)
    requires v.cluster.available.Some? && v.cluster.blocked.Some?
    ensures Draws(v, targetPort) >= 0
    ensures Draws(v, targetPort) > 0 <==> Mapping.SomeAnswers(v.byName, v.cluster.available.value, targetPort)
  {
    Mapping.AnswersIff(v.byName, v.cluster.available.value, targetPort);
    var blocked, endpoints := |v.cluster.blocked.value|, Count(Mapping.GroupOf(v.byName, v.cluster.available.value, targetPort));
    PositiveProduct(if blocked == 0 then 1 else blocked, endpoints);
  }

  lemma PositiveProduct(a: nat, b: nat)
    requires a > 0
    ensures a * b >= 0 && (a * b > 0 <==> b > 0)
  {
    if b > 0 { AtMostTimes(a, b); }
  }

  /** Both subsets are those of the round that starts at i. */
  predicate InRound(v: View, names: seq<Name>, minimumAlive: int, i: nat) {
    && minimumAlive < |names| && i < |names| && i % (|names| - minimumAlive) == 0
    && Drained(v.cluster, names, i, BatchEnd(|names|, minimumAlive, i))
  }

  /** Every available pod, those re-created in earlier rounds included, runs and has an endpoint for the port. */
  predicate Served(v: View, targetPort: int)
    requires v.cluster.available.Some?
  {
    forall name :: name in v.cluster.available.value ==> Mapping.EndpointsFor(v.byName, name, targetPort) != []
  }

  /** A round in which all available pods are there and the weights stay within int32. */
  predicate GoodRound(v: View, vs: Mapping.VirtualService, names: seq<Name>, minimumAlive: int, targetPort: int, i: nat) {
    && Shows(v, vs) && InRound(v, names, minimumAlive, i)
    && Served(v, targetPort) && Draws(v, targetPort) <= Int32.Max
  }

  /**
   * Given that the available pods are there, every round has traffic if and only if minimumAlive is positive;
   * otherwise nobody is available in the first one.
   */
  lemma EveryRoundHasTrafficIff(vs: Mapping.VirtualService, names: seq<Name>, minimumAlive: int, targetPort: int)
    requires IsUpdateService(vs) && 0 < |names| <= Int32.Max && minimumAlive < |names|
    ensures minimumAlive >= 1 <==>
            forall v, i: nat :: GoodRound(v, vs, names, minimumAlive, targetPort, i) ==> CanDraw(EntriesIn(v, vs, targetPort))
  {
    forall v, i: nat | GoodRound(v, vs, names, minimumAlive, targetPort, i) && minimumAlive >= 1
      ensures CanDraw(EntriesIn(v, vs, targetPort))
    {
      var available := v.cluster.available.value;
      assert available[0] in available;
      TrafficIff(v, vs, targetPort);
    }
    if minimumAlive <= 0 {
      var v := EmptyRound(vs, names, minimumAlive, targetPort);
    }
  }

  /**
   * While a pod of the run is deleted or re-created, if the weights stay within int32 and every available pod is
   * there, envoy can draw if and only if minimumAlive is positive.
   */
  lemma ReplacingHasTrafficIff(base: map<Name, Spec>, names: seq<Name>, spec: Spec, minimumAlive: int, steps: seq<Step>,
                               s: Step, d: nat, v: View, vs: Mapping.VirtualService, targetPort: int)
    requires minimumAlive < |names| && InRounds(base, names, spec, minimumAlive, steps) && s in steps
    requires d < |names| && (s.call == DeletePod(names[d]) || s.call == AddPod(names[d], spec))
    requires v.cluster == s.before && Shows(v, vs) && Served(v, targetPort) && Draws(v, targetPort) <= Int32.Max
    ensures CanDraw(EntriesIn(v, vs, targetPort)) <==> minimumAlive >= 1
  {
    assert ReplacedInRound(base, names, spec, minimumAlive, d, s);
    AvailableIff(base, names, spec, minimumAlive, d, s);
    TrafficIff(v, vs, targetPort);
    ServedIffAny(v, targetPort);
  }

  /** While a pod is replaced somebody is available exactly when minimumAlive is positive. */
  lemma AvailableIff(base: map<Name, Spec>, names: seq<Name>, spec: Spec, minimumAlive: int, d: nat, s: Step)
    requires d < |names| && minimumAlive < |names| && ReplacedInRound(base, names, spec, minimumAlive, d, s)
    ensures s.before.available.Some? && (s.before.available.value != [] <==> minimumAlive >= 1)
  {
    var size := |names| - minimumAlive;
    var i := d - d % size;
    if minimumAlive <= 0 {
      SmallRemainder(d, size);
    }
    assert |names[..i]| == i;
  }

  lemma ServedIffAny(v: View, targetPort: int)
    requires v.cluster.available.Some? && Served(v, targetPort)
    ensures Mapping.SomeAnswers(v.byName, v.cluster.available.value, targetPort) <==> v.cluster.available.value != []
  {
    var available := v.cluster.available.value;
    if available != [] {
      assert available[0] in available;
    }
  }

  lemma SmallRemainder(d: nat, size: nat)
    requires d < size
    ensures d % size == d
  {
    QuotientIs(d, size, 0, d);
  }

  function BothSubsets(vs: Mapping.VirtualService, available: seq<Name>, blocked: seq<Name>): Mapping.SubsetStore
    requires IsUpdateService(vs)
  {
    map[Mapping.SubsetKey(vs, vs.subsets[0]) := available, Mapping.SubsetKey(vs, vs.subsets[1]) := blocked]
  }

  lemma BothSubsetsRead(vs: Mapping.VirtualService, available: seq<Name>, blocked: seq<Name>)
    requires IsUpdateService(vs)
    ensures Mapping.Listed(vs, BothSubsets(vs, available, blocked), 0) == available
    ensures Mapping.Listed(vs, BothSubsets(vs, available, blocked), 1) == blocked
  {
    assert |Mapping.SubsetKey(vs, vs.subsets[0])| != |Mapping.SubsetKey(vs, vs.subsets[1])|;
  }

  lemma {:induction false} CountOfOnes(pods: Group)
    requires forall k :: 0 <= k < |pods| ==> |pods[k]| == 1
    ensures Count(pods) == |pods|
  {
    if pods != [] { CountOfOnes(pods[..|pods| - 1]); }
  }

  lemma ProductWithin(a: nat, b: nat, n: nat)
    requires a <= n && b <= n
    ensures a * b <= n * n
  {
    Int32.NonNegativeProduct(n - a, b);
    Int32.NonNegativeProduct(n, n - b);
    Distribute(n, b, n - b);
    assert (n - a) * b == n * b - a * b;
  }

  /** Every round of not too many names can be a good one, with one endpoint per available pod. */
  lemma GoodRoundsExist(vs: Mapping.VirtualService, names: seq<Name>, minimumAlive: int, targetPort: int, i: nat) returns (v: View)
    requires IsUpdateService(vs) && |names| * |names| <= Int32.Max
    requires minimumAlive < |names| && i < |names| && i % (|names| - minimumAlive) == 0
    ensures GoodRound(v, vs, names, minimumAlive, targetPort, i)
  {
    var j := BatchEnd(|names|, minimumAlive, i);
    var available, blocked := names[..i] + names[j..], names[i..j];
    var port := ProxyTypes.EndpointPort(targetPort, ProxyTypes.Tcp);
    var byName := map name | name in available :: ProxyTypes.Endpoint("10.0.0.1", [port]);
    v := View(Cluster(map[], Some(blocked), Some(available), true, false), BothSubsets(vs, available, blocked), byName);
    BothSubsetsRead(vs, available, blocked);
    ProductWithin(1, |names|, |names|);
    assert [port][..0] == [];
    assert Mapping.Matching("10.0.0.1", [port], targetPort) == [] + [SingleEndpoint("10.0.0.1", targetPort)];
    CountOfOnes(Mapping.GroupOf(byName, available, targetPort));
    ProductWithin(if blocked == [] then 1 else |blocked|, |available|, |names|);
  }

  /** With minimumAlive not positive the first round blocks everybody. */
  lemma EmptyRound(vs: Mapping.VirtualService, names: seq<Name>, minimumAlive: int, targetPort: int) returns (v: View)
    requires IsUpdateService(vs) && 0 < |names| <= Int32.Max && minimumAlive <= 0
    ensures GoodRound(v, vs, names, minimumAlive, targetPort, 0) && !CanDraw(EntriesIn(v, vs, targetPort))
  {
    v := View(Cluster(map[], Some(names), Some([]), true, false), BothSubsets(vs, [], names), map[]);
    BothSubsetsRead(vs, [], names);
    assert names[0..|names|] == names && names[..0] + names[|names|..] == [];
    DrawsPositive(v, targetPort);
    TrafficIff(v, vs, targetPort);
  }

  /**
   * Between the calls that set the first round's blocked and available subsets nobody is available yet: the mapping
   * has entries, but none that can be drawn, whatever minimumAlive is.
   */
  lemma FirstBlockStopsTraffic(v: View, vs: Mapping.VirtualService, targetPort: int)
    requires Shows(v, vs) && v.cluster.available == Some([]) && v.cluster.blocked.value != []
    ensures EntriesIn(v, vs, targetPort) != [] && AllWeighted(EntriesIn(v, vs, targetPort))
    ensures !CanDraw(EntriesIn(v, vs, targetPort))
  {
    BlockedAreListed(v, vs, targetPort);
    PublishedDraws(v, vs, targetPort);
    DrawsPositive(v, targetPort);
  }

  lemma BlockedAreListed(v: View, vs: Mapping.VirtualService, targetPort: int)
    requires Shows(v, vs) && v.cluster.blocked.value != []
    ensures EntriesIn(v, vs, targetPort) != []
  {
    Mapping.EntriesCount(v.byName, vs, v.store, targetPort, 2);
    assert Mapping.Before(vs, v.store, 2) == Mapping.Before(vs, v.store, 1) + |v.cluster.blocked.value|;
  }

  /** Of two pods with minimumAlive 1, the second round has no traffic while the re-created first one is pending. */
  lemma PendingPodStopsTraffic(v: View, vs: Mapping.VirtualService, targetPort: int, a: Name, b: Name)
    requires Shows(v, vs) && v.cluster.blocked == Some([b]) && v.cluster.available == Some([a]) && a !in v.byName
    ensures InRound(v, [a, b], 1, 1) && !CanDraw(EntriesIn(v, vs, targetPort))
  {
    assert [a, b][1..2] == [b] && [a, b][..1] + [a, b][2..] == [a];
    DrawsPositive(v, targetPort);
    TrafficIff(v, vs, targetPort);
  }

  /** A large round's weights add up to a negative int32 although every available pod has an endpoint. */
  lemma LargeRoundStopsTraffic(v: View, vs: Mapping.VirtualService, targetPort: int)
    requires Shows(v, vs) && |v.cluster.blocked.value| == 50_000
    requires Count(Mapping.GroupOf(v.byName, v.cluster.available.value, targetPort)) == 50_000
    ensures !CanDraw(EntriesIn(v, vs, targetPort))
    ensures Mapping.SomeAnswers(v.byName, v.cluster.available.value, targetPort)
  {
    assert Draws(v, targetPort) == 2_500_000_000;
    TrafficIff(v, vs, targetPort);
    Mapping.AnswersIff(v.byName, v.cluster.available.value, targetPort);
  }
}
