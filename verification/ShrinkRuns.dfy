// Whole runs of one shard: scale-ups, shrinks whose plan is recorded first and
// applied later, possibly more than once and with an edited number of replicas,
// and failovers at any moment in between.
module ShrinkRuns {
  import opened Text
  import opened Counting
  import opened Ordinals
  import opened Topology
  import opened ShrinkPlanner
  import opened ShrinkCorrect
  import opened Scaling

  // `pending` is the shard's plan in Status.Shrink.
  datatype Shard = Shard(sts: StatefulSet, master: int, pending: Option<seq<int>>)

  datatype Action =
    | Grow(target: nat)
    | RecordPlan(target: nat)
    | ApplyPlan(replicas: nat, last: bool)   // `last`: the clean-up completes and clears the plan
    | StaleApply(plan: seq<int>, replicas: nat)  // a clean-up from an old copy; its status write is refused
    | Failover(newMaster: int)

  // The node list of a shard: its pods by ordinal, one of them the master.
  function NodesOf(ordinals: seq<int>, master: int): (r: seq<Node>)
    ensures |r| == |ordinals|
    ensures forall k :: 0 <= k < |r| ==>
      r[k].podIndex == ordinals[k] && r[k].role == if ordinals[k] == master then MASTER else SLAVE
  {
    seq(|ordinals|, k requires 0 <= k < |ordinals| =>
      Node("", if ordinals[k] == master then MASTER else SLAVE, ordinals[k], [], "", "", false, []))
  }

  function NodesIn(s: Shard): (r: seq<Node>)
    ensures |r| == s.sts.replicas
  {
    NodesOf(LivePods(s.sts.replicas, s.sts.reserve), s.master)
  }

  // ensureShrink on this shard; a planner that does not return records nothing.
  function Recorded(s: Shard, delta: nat): (r: Shard) {
    if InRange(Picked(NodesIn(s), delta), |NodesIn(s)|) then s.(pending := Some(Plan(NodesIn(s), delta))) else s
  }

  function RecordStep(s: Shard, target: nat): (r: Shard) {
    if s.pending == None && target < s.sts.replicas then Recorded(s, s.sts.replicas - target) else s
  }

  function Step(s: Shard, a: Action): (r: Shard) {
    match a
    case Grow(target) => s.(sts := ScaledUp(s.sts, target))
    case RecordPlan(target) => RecordStep(s, target)
    case ApplyPlan(replicas, last) =>
      if s.pending == None then s
      else Shard(Applied(s.sts, s.pending.value, replicas), s.master, if last then None else s.pending)
    case StaleApply(plan, replicas) => s.(sts := Applied(s.sts, plan, replicas))
    case Failover(m) => if m in Pods(s.sts) then s.(master := m) else s
  }

  function Run(s: Shard, actions: seq<Action>): (r: Shard)
    decreases |actions|
  {
    if actions == [] then s else Run(Step(s, actions[0]), actions[1..])
  }

  // ----- does the master stay? -----

  // The master is not in the plan, and fewer ordinals that are neither reserved
  // nor in the plan lie below it than replicas are applied.
  predicate Survives(s: Shard, plan: seq<int>, replicas: nat) {
    s.master !in plan && |FreeBelow(s.master, Elems(s.sts.reserve + plan))| < replicas
  }

  // An action the master survives: any but an application that evicts it.
  predicate SurvivesAction(s: Shard, a: Action) {
    match a
    case ApplyPlan(replicas, _) => s.pending == None || Survives(s, s.pending.value, replicas)
    case StaleApply(plan, replicas) => Survives(s, plan, replicas)
    case _ => true
  }

  lemma {:induction false} ApplySurvivesIff(s: Shard, plan: seq<int>, replicas: nat)
    requires s.master in Pods(s.sts)
    ensures s.master in Pods(Applied(s.sts, plan, replicas)) <==> Survives(s, plan, replicas)
  {
    LiveMember(s.sts.replicas, s.sts.reserve, s.master);
    LiveMember(replicas, s.sts.reserve + plan, s.master);
  }

  // At every moment of the run the current master's pod is running.
  predicate MasterAlwaysRuns(s: Shard, actions: seq<Action>)
    decreases |actions|
  {
    s.master in Pods(s.sts) && (actions == [] || MasterAlwaysRuns(Step(s, actions[0]), actions[1..]))
  }

  // Every application of a plan in the run is one the master survives.
  predicate EveryApplySurvives(s: Shard, actions: seq<Action>)
    decreases |actions|
  {
    actions == [] ||
    (SurvivesAction(s, actions[0]) && EveryApplySurvives(Step(s, actions[0]), actions[1..]))
  }

  lemma {:induction false} StepKeepsMasterIff(s: Shard, a: Action)
    requires s.master in Pods(s.sts)
    ensures Step(s, a).master in Pods(Step(s, a).sts) <==> SurvivesAction(s, a)
  {
    match a {
      case Grow(target) => ScaleUpKeepsPods(s.sts, target);
      case RecordPlan(_) =>
      case ApplyPlan(replicas, _) =>
        if s.pending.Some? {
          ApplySurvivesIff(s, s.pending.value, replicas);
        }
      case StaleApply(plan, replicas) => ApplySurvivesIff(s, plan, replicas);
      case Failover(_) =>
    }
  }

  // Over every run, in any order of scale-ups, recorded plans, applications and
  // failovers: the current master's pod runs throughout if and only if the master
  // survives each application.
  lemma {:induction false} MasterAlwaysRunsIff(s: Shard, actions: seq<Action>)
    requires s.master in Pods(s.sts)
    ensures MasterAlwaysRuns(s, actions) <==> EveryApplySurvives(s, actions)
    decreases |actions|
  {
    if actions != [] {
      var next := Step(s, actions[0]);
      StepKeepsMasterIff(s, actions[0]);
      if next.master in Pods(next.sts) {
        MasterAlwaysRunsIff(next, actions[1..]);
      }
    }
  }

  lemma {:induction false} NodesFacts(s: Shard)
    requires s.master in Pods(s.sts)
    ensures Ordered(NodesIn(s)) && Elems(Ordinal(NodesIn(s))) == Pods(s.sts) && Masters(NodesIn(s)) == {s.master}
  {
    var ordinals := LivePods(s.sts.replicas, s.sts.reserve);
    var nodes := NodesIn(s);
    LiveIs(s.sts.replicas, s.sts.reserve);
    assert Ordinal(nodes) == ordinals;
    forall i | 0 <= i < |nodes|
      ensures nodes[i].podIndex >= 0
    {
      assert ordinals[i] in Pods(s.sts);
    }
    forall x
      ensures x in Masters(nodes) <==> x == s.master
    {
      MastersMember(nodes, x);
    }
  }

  // ----- runs in which nothing goes wrong -----

  // Scale-ups and failovers happen only while no plan is pending, plans have a
  // target of at least one, and each application uses at least the target of the
  // plan it applies. `target` is that of the pending plan.
  predicate Orderly(s: Shard, target: nat, actions: seq<Action>)
    decreases |actions|
  {
    actions == [] ||
    (OrderlyAction(s, target, actions[0]) &&
     Orderly(Step(s, actions[0]), NextTarget(s, target, actions[0]), actions[1..]))
  }

  predicate OrderlyAction(s: Shard, target: nat, a: Action) {
    match a
    case Grow(_) => s.pending == None
    case RecordPlan(t) => t >= 1
    case ApplyPlan(replicas, _) => s.pending == None || replicas >= target
    case StaleApply(_, _) => false
    case Failover(_) => s.pending == None
  }

  function NextTarget(s: Shard, target: nat, a: Action): (t: nat) {
    if a.RecordPlan? && s.pending == None then a.target else target
  }

  // The master runs, and will after the pending plan is applied as it was meant.
  ghost predicate Safe(s: Shard, target: nat) {
    s.master in Pods(s.sts) && (s.pending == None || Survives(s, s.pending.value, target))
  }

  lemma {:induction false} RecordIsSafe(s: Shard, target: nat, delta: nat)
    requires s.master in Pods(s.sts) && s.pending == None
    requires 1 <= target && target + delta == s.sts.replicas
    ensures Safe(Recorded(s, delta), target)
  {
    var nodes := NodesIn(s);
    NodesFacts(s);
    PlanKeepsMaster(nodes, s.sts.reserve, target, delta, s.master);
    ApplySurvivesIff(s, Plan(nodes, delta), target);
  }

  lemma {:induction false} ApplyIsSafe(s: Shard, target: nat, replicas: nat, last: bool)
    requires Safe(s, target) && s.pending.Some? && replicas >= target
    ensures Safe(Step(s, ApplyPlan(replicas, last)), target)
  {
    var plan := s.pending.value;
    ApplySurvivesIff(s, plan, replicas);
    ElemsConcat(s.sts.reserve, plan);
    ElemsConcat(s.sts.reserve + plan, plan);
    assert Elems(s.sts.reserve + plan + plan) == Elems(s.sts.reserve + plan);
  }

  lemma {:induction false} RecordStepIsSafe(s: Shard, target: nat, t: nat)
    requires Safe(s, target) && t >= 1
    ensures Safe(RecordStep(s, t), if s.pending == None then t else target)
  {
    if s.pending == None && t < s.sts.replicas {
      var delta: nat := s.sts.replicas - t;
      RecordIsSafe(s, t, delta);
      assert RecordStep(s, t) == Recorded(s, delta);
    }
  }

  lemma {:induction false} OrderlyStepIsSafe(s: Shard, target: nat, a: Action)
    requires Safe(s, target) && OrderlyAction(s, target, a)
    ensures Safe(Step(s, a), NextTarget(s, target, a))
  {
    match a {
      case Grow(t) => ScaleUpKeepsPods(s.sts, t);
      case RecordPlan(t) => RecordStepIsSafe(s, target, t);
      case ApplyPlan(replicas, last) =>
        if s.pending.Some? {
          ApplyIsSafe(s, target, replicas, last);
        }
      case Failover(_) =>
    }
  }

  // In every orderly run, however often shrinks are recorded and applied, cut short
  // and repeated, the master's pod always runs.
  lemma {:induction false} OrderlyKeepsMaster(s: Shard, target: nat, actions: seq<Action>)
    requires Safe(s, target) && Orderly(s, target, actions)
    ensures MasterAlwaysRuns(s, actions)
    decreases |actions|
  {
    if actions != [] {
      OrderlyStepIsSafe(s, target, actions[0]);
      OrderlyKeepsMaster(Step(s, actions[0]), NextTarget(s, target, actions[0]), actions[1..]);
    }
  }

  // From a shard with a running master and nothing pending.
  lemma {:induction false} FixedMasterStays(s: Shard, actions: seq<Action>)
    requires s.master in Pods(s.sts) && s.pending == None && Orderly(s, 0, actions)
    requires forall k :: 0 <= k < |actions| ==> !actions[k].Failover?
    ensures MasterAlwaysRuns(s, actions) && Run(s, actions).master == s.master
  {
    OrderlyKeepsMaster(s, 0, actions);
    SameMaster(s, actions);
  }

  lemma {:induction false} SameMaster(s: Shard, actions: seq<Action>)
    requires forall k :: 0 <= k < |actions| ==> !actions[k].Failover?
    ensures Run(s, actions).master == s.master
    decreases |actions|
  {
    if actions != [] {
      assert !actions[0].Failover?;
      assert forall k :: 0 <= k < |actions| - 1 ==> actions[1..][k] == actions[k + 1];
      SameMaster(Step(s, actions[0]), actions[1..]);
    }
  }

  // The usual shrink: a plan for `target` replicas is recorded, failovers make any
  // running pod `m` the master, and the plan is applied as it was meant. The new
  // master's pod stays if and only if it was the master when the plan was made or
  // at least as many other slaves as pods had to go lay above it.
  lemma {:induction false} PromotedStaysIff(s: Shard, target: nat, delta: nat, m: int, last: bool)
    requires s.master in Pods(s.sts) && s.pending == None && m in Pods(s.sts)
    requires 1 <= target && target + delta == s.sts.replicas && delta > 0
    requires TopSlave(NodesIn(s)) < |NodesIn(s)|
    ensures var end := Run(s, [RecordPlan(target), Failover(m), ApplyPlan(target, last)]);
            && end.master == m
            && (m in Pods(end.sts) <==> m == s.master || |Above(Pods(s.sts) - {s.master}, m)| >= delta)
  {
    NodesFacts(s);
    ReturnsIff(NodesIn(s), delta);
    var plan := Plan(NodesIn(s), delta);
    assert RecordStep(s, target) == Recorded(s, delta) == s.(pending := Some(plan));
    PromotedRun(s, target, m, last, plan);
    PromotedNodesIff(NodesIn(s), s.sts.reserve, target, delta, s.master, m);
  }

  lemma {:induction false} PromotedRun(s: Shard, target: nat, m: int, last: bool, plan: seq<int>)
    requires RecordStep(s, target) == s.(pending := Some(plan)) && m in Pods(s.sts)
    ensures Run(s, [RecordPlan(target), Failover(m), ApplyPlan(target, last)])
         == Shard(Applied(s.sts, plan, target), m, if last then None else Some(plan))
  {
    RunThree(s, RecordPlan(target), Failover(m), ApplyPlan(target, last));
  }

  lemma {:induction false} PromotedNodesIff(nodes: seq<Node>, reserve: seq<int>, target: nat, delta: nat,
                                            master: int, m: int)
    requires Ordered(nodes) && 1 <= target && target + delta == |nodes|
    requires Elems(Ordinal(nodes)) == Live(|nodes|, reserve)
    requires Masters(nodes) == {master} && m in Elems(Ordinal(nodes))
    ensures m in Live(target, reserve + Plan(nodes, delta))
       <==> m == master || |Above(Elems(Ordinal(nodes)) - {master}, m)| >= delta
  {
    PlanKeepsMaster(nodes, reserve, target, delta, master);
    KeptIff(nodes, delta, m);
  }

  lemma {:induction false} RunThree(s: Shard, a: Action, b: Action, c: Action)
    ensures Run(s, [a, b, c]) == Step(Step(Step(s, a), b), c)
  {
    assert [a, b, c][1..] == [b, c] && [b, c][1..] == [c] && [c][1..] == [];
    assert Run(Step(Step(s, a), b), [c]) == Step(Step(Step(s, a), b), c);
  }

  // Pods 0, 1 and 2 with the master at 0 and a plan for two replicas. Pod 2 is
  // picked; promoted before the plan is applied, it is evicted as the master.
  lemma {:induction false} PromotedPickIsEvicted()
    ensures var s := Shard(StatefulSet(3, []), 0, None);
            var end := Run(s, [RecordPlan(2), Failover(2), ApplyPlan(2, true)]);
            end.master == 2 && 2 !in Pods(end.sts)
  {
    var s := Shard(StatefulSet(3, []), 0, None);
    FirstPods(3);
    NodesFacts(s);
    TopSlaveListed(NodesIn(s));
    NoneAbove(Pods(s.sts) - {0}, 2);
    PromotedStaysIff(s, 2, 1, 2, true);
  }

  lemma {:induction false} NoneAbove(s: set<int>, x: int)
    requires forall y :: y in s ==> y <= x
    ensures |Above(s, x)| == 0
  {
    assert Above(s, x) == {};
  }

  lemma {:induction false} TopSlaveListed(pods: seq<Node>)
    ensures TopSlave(pods) == -1 || TopSlave(pods) in Elems(Ordinal(pods))
  {
    if pods != [] {
      var n := |pods| - 1;
      TopSlaveListed(pods[..n]);
      assert Ordinal(pods) == Ordinal(pods[..n]) + [pods[n].podIndex];
    }
  }

  // ----- when do the ordinals stay contiguous? -----

  function Range(n: nat): (r: set<int>)
    ensures |r| == n && forall x :: x in r <==> 0 <= x < n
  {
    if n == 0 then {} else Range(n - 1) + {n - 1}
  }

  lemma {:induction false} FirstPods(n: nat)
    ensures Live(n, []) == Range(n)
  {
    LiveCharacterised(Range(n), n, []);
  }

  // From an empty reserve list, a shrink to `target` replicas leaves the ordinals
  // 0..target-1 if and only if the master is one of them; and exactly then it
  // reserves nothing.
  lemma {:induction false} GapOpensIff(s: Shard, target: nat, delta: nat)
    requires s.sts.reserve == [] && s.master in Pods(s.sts)
    requires 1 <= target && target + delta == s.sts.replicas && delta > 0
    ensures Live(target, Plan(NodesIn(s), delta)) == Range(target) <==> s.master < target
    ensures Plan(NodesIn(s), delta) == [] <==> s.master < target
  {
    NodesFacts(s);
    FirstPods(s.sts.replicas);
    GapInNodes(NodesIn(s), s.master, target, delta);
    NothingReservedIff(NodesIn(s), s.master, target, delta);
  }

  // A sorted list of nodes numbered 0, 1, 2, ... with one master.
  ghost predicate Numbered(nodes: seq<Node>, master: int) {
    Ordered(nodes) && Elems(Ordinal(nodes)) == Range(|nodes|) && Masters(nodes) == {master}
  }

  lemma {:induction false} GapInNodes(nodes: seq<Node>, master: int, target: nat, delta: nat)
    requires Numbered(nodes, master) && 1 <= target && target + delta == |nodes|
    ensures Live(target, Plan(nodes, delta)) == Kept(nodes, delta)
    ensures Kept(nodes, delta) == Range(target) <==> master < target
  {
    FirstPods(|nodes|);
    PlanKeepsMaster(nodes, [], target, delta, master);
    assert [] + Plan(nodes, delta) == Plan(nodes, delta);
    PickedAreHighest(nodes, delta);
    GapSets(|nodes|, master, Elems(Picked(nodes, delta)), target);
  }

  lemma {:induction false} GapSets(n: nat, master: int, picked: set<int>, target: nat)
    requires Highest(Range(n), {master}, picked) && |Range(n) - picked| == target <= n
    ensures Range(n) - picked == Range(target) <==> master < target
  {
    var kept := Range(n) - picked;
    if master < target {
      forall x | x in kept
        ensures x in Range(target)
      {
        LowStays(n, master, picked, target, x);
      }
      SubsetSize(kept, Range(target));
    } else {
      assert master in kept && master !in Range(target);
    }
  }

  lemma {:induction false} LowStays(n: nat, master: int, picked: set<int>, target: nat, x: int)
    requires Highest(Range(n), {master}, picked) && |Range(n) - picked| == target <= n
    requires master < target && x in Range(n) - picked
    ensures x < target
  {
    var kept := Range(n) - picked;
    if x >= target {
      // Nothing below x is picked, so there are too many that stay.
      assert forall y :: 0 <= y < target ==> y in kept - {x};
      SubsetSize(Range(target), kept - {x});
    }
  }

  lemma {:induction false} NothingReservedIff(nodes: seq<Node>, master: int, target: nat, delta: nat)
    requires Numbered(nodes, master) && 1 <= target && target + delta == |nodes|
    ensures Plan(nodes, delta) == [] <==> master < target
  {
    GapInNodes(nodes, master, target, delta);
    if master < target {
      forall x
        ensures x !in Elems(Plan(nodes, delta))
      {
        NotReserved(nodes, master, target, delta, x);
      }
      NoMember(Plan(nodes, delta));
    } else {
      FirstPods(target);
    }
  }

  lemma {:induction false} NoMember(s: seq<int>)
    ensures s == [] <==> Elems(s) == {}
  {
    if s != [] {
      assert s[0] in Elems(s);
    }
  }

  lemma {:induction false} NotReserved(nodes: seq<Node>, master: int, target: nat, delta: nat, x: int)
    requires Numbered(nodes, master) && 1 <= target && target + delta == |nodes|
    requires Kept(nodes, delta) == Range(target) && master < target
    ensures x !in Plan(nodes, delta)
  {
    PickedAll(nodes, delta);
    ScanMasterIsLowest(nodes, delta, 0);
    assert ScanMaster(nodes, delta, 0) < target;
    assert x in Picked(nodes, delta) ==> x in Elems(Picked(nodes, delta));
    PickedAreHighest(nodes, delta);
  }

  // Nothing is reserved and the pending plan, if any, reserves nothing.
  predicate Unreserved(s: Shard) {
    s.sts.reserve == [] && (s.pending == None || s.pending.value == [])
  }

  predicate AlwaysUnreserved(s: Shard, actions: seq<Action>)
    decreases |actions|
  {
    Unreserved(s) && (actions == [] || AlwaysUnreserved(Step(s, actions[0]), actions[1..]))
  }

  // Whenever a plan is recorded, the master's ordinal is below its target, and no old
  // copy brings a plan that reserves anything.
  predicate PlansKeepLowMasters(s: Shard, actions: seq<Action>)
    decreases |actions|
  {
    actions == [] ||
    (KeepsLowMaster(s, actions[0]) && PlansKeepLowMasters(Step(s, actions[0]), actions[1..]))
  }

  predicate ProperTargets(actions: seq<Action>) {
    forall k :: 0 <= k < |actions| && actions[k].RecordPlan? ==> actions[k].target >= 1
  }

  lemma {:induction false} RecordedReservesIff(s: Shard, target: nat, delta: nat)
    requires s.sts.reserve == [] && s.master in Pods(s.sts)
    requires 1 <= target && target + delta == s.sts.replicas && delta > 0
    ensures Recorded(s, delta).pending == Some(Plan(NodesIn(s), delta))
    ensures Unreserved(Recorded(s, delta)) <==> s.master < target
  {
    GapOpensIff(s, target, delta);
    assert InRange(Picked(NodesIn(s), delta), |NodesIn(s)|) by {
      NodesFacts(s);
      FirstPods(s.sts.replicas);
      TopSlaveListed(NodesIn(s));
      ReturnsIff(NodesIn(s), delta);
    }
  }

  // The plan this action records, if it records one, has the master below its
  // target; and a plan applied from an old copy is empty.
  predicate KeepsLowMaster(s: Shard, a: Action) {
    && (a.RecordPlan? && s.pending == None && a.target < s.sts.replicas ==> s.master < a.target)
    && (a.StaleApply? ==> a.plan == [])
  }

  lemma {:induction false} StepReservesIff(s: Shard, a: Action)
    requires Unreserved(s) && s.master in Pods(s.sts) && (a.RecordPlan? ==> a.target >= 1)
    ensures Unreserved(Step(s, a)) <==> KeepsLowMaster(s, a)
  {
    if a.RecordPlan? {
      if s.pending == None && a.target < s.sts.replicas {
        var delta: nat := s.sts.replicas - a.target;
        RecordedReservesIff(s, a.target, delta);
        assert Step(s, a) == Recorded(s, delta);
      }
    } else if a.StaleApply? {
      assert Step(s, a).sts.reserve == a.plan;
    } else {
      OthersReserveNothing(s, a);
    }
  }

  lemma {:induction false} OthersReserveNothing(s: Shard, a: Action)
    requires Unreserved(s) && !a.RecordPlan? && !a.StaleApply?
    ensures Unreserved(Step(s, a))
  {
  }

  // Over every run from an empty reserve list in which the master always runs: no
  // ordinal is ever reserved if and only if every plan is recorded while the
  // master's ordinal is below its target; and then the pods are always numbered
  // 0, 1, 2, ... without a gap.
  lemma {:induction false} StaysContiguousIff(s: Shard, actions: seq<Action>)
    requires Unreserved(s) && MasterAlwaysRuns(s, actions) && ProperTargets(actions)
    ensures AlwaysUnreserved(s, actions) <==> PlansKeepLowMasters(s, actions)
    ensures AlwaysUnreserved(s, actions) ==> Pods(Run(s, actions).sts) == Range(Run(s, actions).sts.replicas)
    decreases |actions|
  {
    if actions == [] {
      FirstPods(s.sts.replicas);
    } else {
      var next := Step(s, actions[0]);
      StepReservesIff(s, actions[0]);
      if Unreserved(next) {
        assert forall k :: 0 <= k < |actions| - 1 ==> actions[1..][k] == actions[k + 1];
        StaysContiguousIff(next, actions[1..]);
      }
    }
  }

  // A shard of any size is shrunk by one pod and grown back, and the new pod becomes
  // the master. A clean-up that still works from the old copy then evicts it.
  lemma {:induction false} StaleCopyEvictsMaster(n: nat, s: Shard, planned: Shard, applied: Shard, grown: Shard)
    requires n >= 1 && s == Shard(StatefulSet(n + 1, []), 0, None)
    requires planned == Step(s, RecordPlan(n)) && applied == Step(planned, ApplyPlan(n, true))
    requires grown == Step(applied, Grow(n + 1))
    ensures planned.pending == Some([]) && n in Pods(grown.sts)
    ensures n !in Pods(Step(grown.(master := n), StaleApply(planned.pending.value, n)).sts)
  {
    EmptyPlan(s, n);
    EvictedAgain(n, s, planned, applied, grown);
  }

  lemma {:induction false} EvictedAgain(n: nat, s: Shard, planned: Shard, applied: Shard, grown: Shard)
    requires n >= 1 && s == Shard(StatefulSet(n + 1, []), 0, None) && planned == s.(pending := Some([]))
    requires applied == Step(planned, ApplyPlan(n, true)) && grown == Step(applied, Grow(n + 1))
    ensures n in Pods(grown.sts) && n !in Pods(Step(grown.(master := n), StaleApply([], n)).sts)
  {
    BackAgain(n, s, planned, applied, grown);
    LastOfFirst(n);
  }

  lemma {:induction false} BackAgain(n: nat, s: Shard, planned: Shard, applied: Shard, grown: Shard)
    requires n >= 1 && s == Shard(StatefulSet(n + 1, []), 0, None) && planned == s.(pending := Some([]))
    requires applied == Step(planned, ApplyPlan(n, true)) && grown == Step(applied, Grow(n + 1))
    ensures grown == s && Step(grown.(master := n), StaleApply([], n)).sts == StatefulSet(n, [])
  {
    NoneAdded();
    assert applied == Shard(StatefulSet(n, []), 0, None);
  }

  lemma {:induction false} LastOfFirst(n: nat)
    ensures n in Pods(StatefulSet(n + 1, [])) && n !in Pods(StatefulSet(n, []))
  {
    FirstPods(n + 1);
    FirstPods(n);
  }

  lemma {:induction false} EmptyPlan(s: Shard, n: nat)
    requires n >= 1 && s == Shard(StatefulSet(n + 1, []), 0, None)
    ensures Step(s, RecordPlan(n)) == s.(pending := Some([]))
  {
    FirstPods(n + 1);
    RecordedReservesIff(s, n, 1);
    assert RecordStep(s, n) == Recorded(s, 1);
  }

  lemma {:induction false} NoneAdded()
    ensures var none: seq<int> := []; none + none == none
  {
  }
}
