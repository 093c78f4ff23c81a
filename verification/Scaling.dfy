// Resizing the StatefulSet of a shard: the scale-up loop, applying a shrink plan
// (also when a crash makes it run more than once), and whole runs of both.
module Scaling {
  import opened Counting
  import opened Ordinals
  import opened Topology
  import opened ShrinkPlanner
  import opened ShrinkCorrect

  datatype StatefulSet = StatefulSet(replicas: nat, reserve: seq<int>)

  function Pods(sts: StatefulSet): (r: set<int>) {
    Live(sts.replicas, sts.reserve)
  }

  // ----- scale up -----

  function ScaledUp(cur: StatefulSet, target: nat): (r: StatefulSet) {
    var delta := target - cur.replicas;
    if delta <= 0 then cur
    else StatefulSet(target, if delta < |cur.reserve| then cur.reserve[delta..] else [])
  }

  // The loop drops one reserved ordinal from the front for each added replica.
  method ScaleUp(cur: StatefulSet, target: nat) returns (sts: StatefulSet)
    ensures sts == ScaledUp(cur, target)
  {
    sts := cur;
    var delta := target - cur.replicas;
    if delta > 0 {
      var reserve := cur.reserve;
      ghost var dropped := 0;
      while delta > 0 && |reserve| > 0
        invariant 0 <= dropped <= |cur.reserve| && reserve == cur.reserve[dropped..]
        invariant delta == target - cur.replicas - dropped && delta >= 0
        decreases delta
      {
        reserve := reserve[1..];
        delta := delta - 1;
        dropped := dropped + 1;
      }
      sts := StatefulSet(target, reserve);
    }
  }

  // Raising the replicas by at least as much as the reserve list loses never
  // evicts a running pod.
  lemma {:induction false} FewerReservedMorePods(pods: set<int>, reserve: set<int>, replicas: nat,
                                                 more: set<int>, fewer: set<int>, target: nat)
    requires IsLive(pods, replicas, reserve) && IsLive(more, target, fewer)
    requires fewer <= reserve && |reserve - fewer| <= target - replicas
    ensures pods <= more
  {
    forall x | x in pods
      ensures x in more
    {
      if x !in more {
        // Everything in `more` is below x: an old pod or a released ordinal.
        assert forall y :: y in more ==> y < x;
        UnionSize(pods - {x}, reserve - fewer);
        SubsetSize(more, (pods - {x}) + (reserve - fewer));
        assert false;
      }
    }
  }

  lemma {:induction false} UnionSize(a: set<int>, b: set<int>)
    ensures |a + b| <= |a| + |b|
  {
    assert a + b == a + (b - a);
    SubsetSize(b - a, b);
  }

  lemma {:induction false} ScaleUpKeepsPods(cur: StatefulSet, target: nat)
    ensures Pods(cur) <= Pods(ScaledUp(cur, target))
  {
    var delta := target - cur.replicas;
    if delta > 0 {
      var sts := ScaledUp(cur, target);
      var dropped := if delta < |cur.reserve| then cur.reserve[..delta] else cur.reserve;
      assert cur.reserve == dropped + sts.reserve;
      ElemsConcat(dropped, sts.reserve);
      ElemsAtMost(dropped);
      SubsetSize(Elems(cur.reserve) - Elems(sts.reserve), Elems(dropped));
      LiveIs(cur.replicas, cur.reserve);
      LiveIs(target, sts.reserve);
      FewerReservedMorePods(Pods(cur), Elems(cur.reserve), cur.replicas, Pods(sts), Elems(sts.reserve), target);
    }
  }

  // Which pods run after a scale-up: d ordinals from the front of the reserve list
  // are released, one for each added replica while there are any.
  lemma {:induction false} ScaleUpPodsIff(cur: StatefulSet, target: nat, d: nat, x: int)
    requires cur.replicas < target && d == Min(target - cur.replicas, |cur.reserve|)
    ensures x in Pods(ScaledUp(cur, target))
       <==> 0 <= x && x !in cur.reserve[d..] && |FreeBelow(x, Elems(cur.reserve[d..]))| < target
  {
    assert ScaledUp(cur, target).reserve == cur.reserve[d..];
    LiveMember(target, cur.reserve[d..], x);
  }

  function Min(a: int, b: int): (m: int) {
    if a < b then a else b
  }

  // A released ordinal that is not listed again and lies below a running pod runs
  // after the scale-up; an ordinal still listed does not.
  lemma {:induction false} ScaleUpReleases(cur: StatefulSet, target: nat, d: nat, p: nat, y: int)
    requires cur.replicas < target && d == Min(target - cur.replicas, |cur.reserve|) && p < |cur.reserve|
    ensures p < d && 0 <= cur.reserve[p] < y && y in Pods(cur) && cur.reserve[p] !in cur.reserve[d..] ==>
      cur.reserve[p] in Pods(ScaledUp(cur, target))
    ensures p >= d ==> cur.reserve[p] !in Pods(ScaledUp(cur, target))
  {
    var x, held := cur.reserve[p], cur.reserve[d..];
    ScaleUpPodsIff(cur, target, d, x);
    if p >= d {
      assert held[p - d] == x;
    } else if 0 <= x < y && y in Pods(cur) {
      LiveMember(cur.replicas, cur.reserve, y);
      FreedBelow(cur.reserve, d, p, y);
    }
  }

  // Releasing d reserved ordinals frees at most d - 1 below one of them.
  lemma {:induction false} FreedBelow(reserve: seq<int>, d: nat, p: nat, y: int)
    requires p < d <= |reserve| && reserve[p] < y
    ensures |FreeBelow(reserve[p], Elems(reserve[d..]))| < |FreeBelow(y, Elems(reserve))| + d
  {
    var x, freed := reserve[p], Elems(reserve[..d]);
    assert reserve == reserve[..d] + reserve[d..];
    ElemsConcat(reserve[..d], reserve[d..]);
    ElemsAtMost(reserve[..d]);
    assert reserve[..d][p] == x;
    var below := FreeBelow(y, Elems(reserve));
    UnionSize(below, freed - {x});
    SubsetSize(FreeBelow(x, Elems(reserve[d..])), below + (freed - {x}));
  }

  // ----- apply a shrink plan -----

  function Applied(sts: StatefulSet, plan: seq<int>, replicas: nat): (r: StatefulSet) {
    StatefulSet(replicas, sts.reserve + plan)
  }

  // What is recorded in Status.Shrink, by shard number.
  datatype ShrinkMsg = ShrinkMsg(partition: seq<int>, reserves: map<int, seq<int>>)

  // One attempt, complete or cut short. `reached` are the listed partitions whose
  // lookup was answered and whose deletion was accepted: exactly these are gone.
  // Some listed plans are applied, in a complete attempt all, and nothing else
  // changes.
  ghost predicate Attempt(msg: ShrinkMsg, replicas: nat, reached: set<int>,
                          a: map<int, StatefulSet>, b: map<int, StatefulSet>, ok: bool)
  {
    && reached <= Elems(msg.partition) && b.Keys == a.Keys - reached
    && (forall i :: i in b ==>
          || b[i] == a[i]
          || (i in msg.reserves && b[i] == Applied(a[i], msg.reserves[i], replicas)))
    && (ok ==> forall i :: i in msg.reserves ==>
          i in b && i in a && b[i] == Applied(a[i], msg.reserves[i], replicas))
  }

  class Kubernetes {
    var sets: map<int, StatefulSet>

    // DeleteStatefulSetIfExists takes every failed lookup for a StatefulSet that
    // does not exist, so it reports success then; `answered` is whether the lookup
    // was answered.
    method DeleteIfExists(i: int) returns (ok: bool, ghost answered: bool)
      modifies this
      ensures ok ==> sets == if answered then old(sets) - {i} else old(sets)
      ensures !ok ==> answered && sets == old(sets)
    {
      var found, fails := *, *;
      answered := found;
      ok := !found || !fails || i !in sets;
      if found && ok {
        sets := sets - {i};
      }
    }

    // cleanStatefulSet up to its status update. Any call may fail, which ends the
    // attempt, except a lookup before a deletion; the plans are visited in an
    // arbitrary order. `answered` are the partitions whose lookup was answered.
    method CleanStatefulSet(msg: ShrinkMsg, replicas: nat)
      returns (ok: bool, ghost answered: set<int>, ghost reached: set<int>)
      requires forall i :: i in msg.reserves ==> i !in msg.partition
      modifies this
      ensures Attempt(msg, replicas, reached, old(sets), sets, ok)
      ensures reached <= answered <= Elems(msg.partition) && (ok ==> reached == answered)
    {
      ok, answered, reached := DropPartitions(msg.partition);
      if !ok {
        return;
      }
      ok := ApplyPlans(msg.reserves, replicas);
    }

    // The first loop.
    method DropPartitions(partition: seq<int>) returns (ok: bool, ghost answered: set<int>, ghost reached: set<int>)
      modifies this
      ensures reached <= answered <= Elems(partition) && (ok ==> reached == answered)
      ensures sets == old(sets) - reached
    {
      answered, reached := {}, {};
      for k := 0 to |partition|
        invariant reached == answered <= Elems(partition[..k])
        invariant sets == old(sets) - reached
      {
        ghost var found;
        ElemsUpTo(partition, k);
        ok, found := DeleteIfExists(partition[k]);
        if found {
          answered := answered + {partition[k]};
        }
        if !ok {
          return;
        }
        reached := answered;
      }
      assert partition[..|partition|] == partition;
      ok := true;
    }

    // The second loop.
    method ApplyPlans(reserves: map<int, seq<int>>, replicas: nat) returns (ok: bool)
      modifies this
      ensures sets.Keys == old(sets).Keys
      ensures forall i :: i in sets ==>
        || sets[i] == old(sets)[i]
        || (i in reserves && sets[i] == Applied(old(sets)[i], reserves[i], replicas))
      ensures ok ==> forall i :: i in reserves ==>
        i in sets && sets[i] == Applied(old(sets)[i], reserves[i], replicas)
    {
      ghost var before := sets;
      ok := false;
      var todo := reserves.Keys;
      while todo != {}
        invariant todo <= reserves.Keys && sets.Keys == before.Keys
        invariant forall i :: i in sets ==>
          sets[i] == if i in reserves && i !in todo then Applied(before[i], reserves[i], replicas) else before[i]
        invariant forall i :: i in reserves && i !in todo ==> i in sets
        decreases |todo|
      {
        var i := PickAny(todo);
        var fails := *;
        if fails || i !in sets {
          return;
        }
        var sts := sets[i].(replicas := replicas);
        if |reserves[i]| != 0 {
          sts := sts.(reserve := sts.reserve + reserves[i]);
        }
        fails := *;
        if fails {
          return;
        }
        sets := sets[i := sts];
        todo := todo - {i};
      }
      ok := true;
    }
  }

  lemma {:induction false} ElemsUpTo(s: seq<int>, k: nat)
    requires k < |s|
    ensures Elems(s[..k + 1]) == Elems(s[..k]) + {s[k]}
    ensures Elems(s[..k + 1]) <= Elems(s)
  {
    assert s[..k + 1] == s[..k] + [s[k]];
  }

  // A history of attempts: interrupted ones, then one that completes. Each reads
  // Spec.Replicas afresh and reaches its own partitions.
  ghost predicate Attempts(msg: ShrinkMsg, replicas: seq<nat>, reached: seq<set<int>>,
                           trace: seq<map<int, StatefulSet>>)
  {
    && |trace| == |replicas| + 1 && |reached| == |replicas| >= 1
    && (forall k :: 0 <= k < |replicas| - 1 ==>
          Attempt(msg, replicas[k], reached[k], trace[k], trace[k + 1], false))
    && Attempt(msg, replicas[|replicas| - 1], reached[|replicas| - 1],
               trace[|replicas| - 1], trace[|replicas|], true)
  }

  // Untouched, or with the plan in the reserve list at least once.
  ghost predicate Progress(start: StatefulSet, now: StatefulSet, plan: seq<int>) {
    now == start || Elems(now.reserve) == Elems(start.reserve) + Elems(plan)
  }

  lemma {:induction false} ProgressStep(start: StatefulSet, now: StatefulSet, plan: seq<int>, replicas: nat)
    requires Progress(start, now, plan)
    ensures Elems(Applied(now, plan, replicas).reserve) == Elems(start.reserve) + Elems(plan)
  {
    ElemsConcat(now.reserve, plan);
  }

  // Whether one of the first k attempts reached partition i.
  predicate Reached(reached: seq<set<int>>, k: nat, i: int)
    requires k <= |reached|
  {
    exists j :: 0 <= j < k && i in reached[j]
  }

  lemma {:induction false} ReachedNext(reached: seq<set<int>>, k: nat, i: int)
    requires k < |reached|
    ensures Reached(reached, k + 1, i) <==> Reached(reached, k, i) || i in reached[k]
  {
  }

  lemma {:induction false} AttemptsProgress(msg: ShrinkMsg, replicas: seq<nat>, reached: seq<set<int>>,
                                            trace: seq<map<int, StatefulSet>>, k: nat, i: int)
    requires Attempts(msg, replicas, reached, trace) && k < |replicas| && i in trace[0]
    requires i in msg.reserves ==> i !in msg.partition
    ensures i in trace[k] <==> !Reached(reached, k, i)
    ensures i in trace[k] && i !in msg.reserves ==> trace[k][i] == trace[0][i]
    ensures i in trace[k] && i in msg.reserves ==> Progress(trace[0][i], trace[k][i], msg.reserves[i])
  {
    if k > 0 {
      AttemptsProgress(msg, replicas, reached, trace, k - 1, i);
      ReachedNext(reached, k - 1, i);
      assert Attempt(msg, replicas[k - 1], reached[k - 1], trace[k - 1], trace[k - 1 + 1], false);
      if i in msg.reserves && i in trace[k - 1] {
        ProgressStep(trace[0][i], trace[k - 1][i], msg.reserves[i], replicas[k - 1]);
      }
    }
  }

  // However often the clean-up is cut short and repeated before it completes, and
  // however Spec.Replicas is edited meanwhile: a StatefulSet is gone exactly when
  // some attempt reached it, which only happens to listed partitions; a planned one
  // ends with the pods of a single application with the last value; every other
  // one is untouched.
  lemma {:induction false} ReplayIsOnce(msg: ShrinkMsg, replicas: seq<nat>, reached: seq<set<int>>,
                                        trace: seq<map<int, StatefulSet>>, i: int)
    requires Attempts(msg, replicas, reached, trace) && i in trace[0]
    requires i in msg.reserves ==> i !in msg.partition
    ensures var end, last := trace[|replicas|], replicas[|replicas| - 1];
            && (i !in end <==> Reached(reached, |replicas|, i))
            && (i !in msg.partition ==> i in end)
            && (i in end && i !in msg.reserves ==> end[i] == trace[0][i])
            && (i in msg.reserves ==>
                  && end[i].replicas == last
                  && Pods(end[i]) == Pods(Applied(trace[0][i], msg.reserves[i], last)))
  {
    var n := |replicas|;
    var last := replicas[n - 1];
    AttemptsProgress(msg, replicas, reached, trace, n - 1, i);
    ReachedNext(reached, n - 1, i);
    if i !in msg.partition {
      NeverReached(msg, replicas, reached, trace, i);
    }
    if i in msg.reserves {
      ProgressStep(trace[0][i], trace[n - 1][i], msg.reserves[i], last);
      ElemsConcat(trace[0][i].reserve, msg.reserves[i]);
      assert Elems(trace[n][i].reserve) == Elems(Applied(trace[0][i], msg.reserves[i], last).reserve);
    }
  }

  lemma {:induction false} NeverReached(msg: ShrinkMsg, replicas: seq<nat>, reached: seq<set<int>>,
                                        trace: seq<map<int, StatefulSet>>, i: int)
    requires Attempts(msg, replicas, reached, trace) && i !in msg.partition
    ensures !Reached(reached, |replicas|, i)
  {
    forall j | 0 <= j < |reached|
      ensures i !in reached[j]
    {
      if j < |replicas| - 1 {
        assert Attempt(msg, replicas[j], reached[j], trace[j], trace[j + 1], false);
      }
    }
  }

  // An attempt whose lookups all go unanswered completes and deletes nothing.
  lemma {:induction false} UnansweredLookupsLeaveAll(msg: ShrinkMsg, replicas: nat, sets: map<int, StatefulSet>)
    requires msg.reserves == map[]
    ensures Attempt(msg, replicas, {}, sets, sets, true)
    ensures Attempts(msg, [replicas], [{}], [sets, sets])
  {
    var none: set<int> := {};
    assert sets.Keys == sets.Keys - none;
  }

  // ----- a plan applied with another number of replicas -----

  function Below(s: set<int>, x: int): (r: set<int>) {
    set y | y in s && y < x
  }

  // A pod the plan keeps still runs exactly when fewer pods the plan keeps lie
  // below it than replicas are applied.
  lemma {:induction false} AppliedKeepsIff(pods: seq<Node>, reserve: seq<int>, planned: nat, delta: nat, master: int,
                                           replicas: nat, x: int)
    requires Ordered(pods) && 1 <= planned && planned + delta == |pods| && Elems(Ordinal(pods)) == Live(|pods|, reserve)
    requires Masters(pods) == {master} && x in Kept(pods, delta)
    ensures x in Live(replicas, reserve + Plan(pods, delta)) <==> |Below(Kept(pods, delta), x)| < replicas
  {
    var all := reserve + Plan(pods, delta);
    PlanKeepsMaster(pods, reserve, planned, delta, master);
    LiveIs(planned, all);
    LiveMember(replicas, all, x);
    FreeIsKept(Kept(pods, delta), planned, Elems(all), x);
  }

  lemma {:induction false} FreeIsKept(kept: set<int>, replicas: nat, reserve: set<int>, x: int)
    requires IsLive(kept, replicas, reserve) && x in kept
    ensures FreeBelow(x, reserve) == Below(kept, x)
  {
  }

  // Pods 0, 1 and 2 with the master at 2, planned for two replicas; when the spec
  // is lowered to one before the plan is applied, the master goes.
  lemma {:induction false} LoweredSpecEvictsMaster(n0: Node, n1: Node, n2: Node)
    requires n0.podIndex == 0 && n1.podIndex == 1 && n2.podIndex == 2
    requires n0.role == n1.role == SLAVE && n2.role == MASTER
    ensures Plan([n0, n1, n2], 1) == [1] && Live(2, [1]) == {0, 2} && Live(1, [1]) == {0}
  {
    var pods := [n0, n1, n2];
    assert pods[..2] == [n0, n1] && pods[..2][..1] == [n0];
    assert Picked([n0, n1], 1) == [1];
    assert ScanMaster(pods, 1, 0) == ScanMaster([n0, n1], 1, 2) == ScanMaster([n0], 0, 2) == 2;
    assert KeepUpTo([1], 2) == KeepUpTo([], 2) + [1];
    assert Elems([1]) == {1} && {1} - {1} == {};
    assert LiveFrom(1, 1, {1}) == LiveFrom(2, 1, {}) == [2];
    assert LiveFrom(0, 2, {1}) == [0, 2] && LiveFrom(0, 1, {1}) == [0];
    assert LivePods(2, [1]) == [0, 2] && LivePods(1, [1]) == [0];
  }
}
