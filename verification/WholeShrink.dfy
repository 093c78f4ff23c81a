// Shrinking a whole cluster: ensureShrink decides for all shards, the decision is
// persisted, and cleanStatefulSet applies it, possibly more than once.
module WholeShrink {
  import opened Text
  import opened Counting
  import opened Ordinals
  import opened Topology
  import opened ShrinkPlanner
  import opened ShrinkCorrect
  import opened ShrinkReload
  import opened Scaling
  import opened StatusProtocol

  // The surplus of a shard; none when it has no more pods than replicas.
  function Surplus(nodes: seq<Node>, replicas: nat): (delta: nat) {
    if |nodes| <= replicas then 0 else |nodes| - replicas
  }

  // The planner returns for this shard.
  predicate Returns(nodes: seq<Node>, replicas: nat) {
    var delta := Surplus(nodes, replicas);
    delta == 0 || InRange(Picked(nodes, delta), |nodes|)
  }

  // The shard's list after its planner ran.
  function LeftOf(nodes: seq<Node>, replicas: nat): (r: seq<Option<Node>>)
    requires Returns(nodes, replicas)
  {
    var delta := Surplus(nodes, replicas);
    if delta == 0 then Present(nodes) else NilAll(Present(nodes), Picked(nodes, delta))
  }

  function Beyond(master: nat, n: nat): (r: seq<int>)
    ensures forall i :: i in r <==> master <= i < n
    decreases n
  {
    if n <= master then [] else Beyond(master, n - 1) + [n - 1]
  }

  // The plans of the first n shards, for those with a surplus.
  function Reserves(sts: seq<seq<Node>>, n: nat, replicas: nat): (r: map<int, seq<int>>)
    requires n <= |sts|
  {
    map i | 0 <= i < n && Surplus(sts[i], replicas) > 0 :: Plan(sts[i], Surplus(sts[i], replicas))
  }

  datatype Decision = Nothing | Decided(msg: ShrinkMsg) | Panicked | MonitorError

  // One shard: the planner on a fresh copy of its list.
  method PlanShard(nodes: seq<Node>, replicas: nat)
    returns (ok: bool, reserve: Option<seq<int>>, left: seq<Option<Node>>)
    ensures ok <==> Returns(nodes, replicas)
    ensures ok ==> left == LeftOf(nodes, replicas)
    ensures ok ==> var delta := Surplus(nodes, replicas);
                   reserve == if delta == 0 then None else Some(Plan(nodes, delta))
  {
    var list := Present(nodes);
    CompactPresent(nodes);
    var a := new Option<Node>[|list|](i requires 0 <= i < |list| => list[i]);
    assert a[..] == list;
    var r := GetReserveIndex(a, replicas);
    if r == IndexOutOfRange {
      return false, None, [];
    }
    return true, r.reserve, a[..];
  }

  // The first loop: the shards beyond Spec.Master are set to nil, each once its
  // sentinel monitor is removed; an error there ends the call.
  method DropShards(sts: seq<seq<Node>>, master: nat)
    returns (ok: bool, shrinkIndex: seq<int>, left: seq<seq<Option<Node>>>)
    requires master <= |sts|
    ensures |sts| == master ==> ok
    ensures ok ==> shrinkIndex == Beyond(master, |sts|) && |left| == |sts|
    ensures ok ==> forall k :: 0 <= k < |sts| ==> left[k] == if k < master then Present(sts[k]) else []
  {
    left, shrinkIndex := PresentAll(sts), [];
    for i := master to |sts|
      invariant shrinkIndex == Beyond(master, i) && |left| == |sts|
      invariant forall k :: 0 <= k < |sts| ==> left[k] == if master <= k < i then [] else Present(sts[k])
    {
      ok := *;
      if !ok {
        return;
      }
      left := left[i := []];
      shrinkIndex := shrinkIndex + [i];
    }
    ok := true;
  }

  lemma {:induction false} ReservesSnoc(sts: seq<seq<Node>>, n: nat, replicas: nat)
    requires n < |sts|
    ensures Surplus(sts[n], replicas) == 0 ==> Reserves(sts, n + 1, replicas) == Reserves(sts, n, replicas)
    ensures Surplus(sts[n], replicas) > 0 ==>
      Reserves(sts, n + 1, replicas) == Reserves(sts, n, replicas)[n := Plan(sts[n], Surplus(sts[n], replicas))]
  {
  }

  // The second loop: the shards that stay are planned.
  method PlanShards(sts: seq<seq<Node>>, master: nat, replicas: nat)
    returns (ok: bool, reserves: map<int, seq<int>>, lists: seq<seq<Option<Node>>>)
    requires master <= |sts|
    ensures ok <==> forall i :: 0 <= i < master ==> Returns(sts[i], replicas)
    ensures ok ==> reserves == Reserves(sts, master, replicas) && |lists| == master
    ensures ok ==> forall i :: 0 <= i < master ==> lists[i] == LeftOf(sts[i], replicas)
  {
    reserves, lists := map[], [];
    for i := 0 to master
      invariant |lists| == i && reserves == Reserves(sts, i, replicas)
      invariant forall k :: 0 <= k < i ==> Returns(sts[k], replicas) && lists[k] == LeftOf(sts[k], replicas)
    {
      ReservesSnoc(sts, i, replicas);
      var reserve, list;
      ok, reserve, list := PlanShard(sts[i], replicas);
      if !ok {
        return;
      }
      lists := lists + [list];
      if reserve != None {
        reserves := reserves[i := reserve.value];
      }
    }
    ok := true;
  }

  // ensureShrink: shards beyond Spec.Master go, the others are planned.
  method EnsureShrink(sts: seq<seq<Node>>, master: nat, replicas: nat, rebalance: bool)
    returns (d: Decision, left: seq<seq<Option<Node>>>)
    requires master <= |sts|
    ensures rebalance ==> d == Nothing
    ensures d == MonitorError ==> !rebalance && |sts| > master
    ensures !rebalance && d != MonitorError ==>
      (d == Panicked <==> !forall i :: 0 <= i < master ==> Returns(sts[i], replicas))
    ensures d == Nothing && !rebalance ==> |sts| == master && forall i :: 0 <= i < master ==> |sts[i]| <= replicas
    ensures d.Decided? ==>
      && d.msg == ShrinkMsg(Beyond(master, |sts|), Reserves(sts, master, replicas))
      && (d.msg.partition != [] || d.msg.reserves != map[])
      && |left| == |sts|
      && (forall i :: 0 <= i < master ==> Returns(sts[i], replicas) && left[i] == LeftOf(sts[i], replicas))
      && (forall i :: master <= i < |sts| ==> left[i] == [])
  {
    if rebalance {
      return Nothing, PresentAll(sts);
    }
    var removed, shrinkIndex;
    removed, shrinkIndex, left := DropShards(sts, master);
    if !removed {
      return MonitorError, left;
    }
    var ok, reserves, lists := PlanShards(sts, master, replicas);
    if !ok {
      return Panicked, left;
    }
    left := lists + left[master..];
    if |shrinkIndex| == 0 && |reserves| == 0 {
      NoSurplus(sts, master, replicas);
      NoneBeyond(master, |sts|);
      return Nothing, left;
    }
    return Decided(ShrinkMsg(shrinkIndex, reserves)), left;
  }

  lemma {:induction false} NoneBeyond(master: nat, n: nat)
    requires master <= n && Beyond(master, n) == []
    ensures n == master
  {
    assert n > master ==> master in Beyond(master, n);
  }

  lemma {:induction false} NoSurplus(sts: seq<seq<Node>>, master: nat, replicas: nat)
    requires master <= |sts| && |Reserves(sts, master, replicas)| == 0
    ensures forall i :: 0 <= i < master ==> |sts[i]| <= replicas
  {
    var none := Reserves(sts, master, replicas);
    forall i | 0 <= i < master
      ensures |sts[i]| <= replicas
    {
      assert i !in none;
    }
  }

  // What ensureShrink saves only drops shards and nodes, as the protocol of the
  // shared object expects.
  lemma {:induction false} DecisionThins(sts: seq<seq<Node>>, master: nat, replicas: nat, left: seq<seq<Option<Node>>>)
    requires master <= |sts| == |left|
    requires forall i :: 0 <= i < master ==> Returns(sts[i], replicas) && left[i] == LeftOf(sts[i], replicas)
    requires forall i :: master <= i < |sts| ==> left[i] == []
    ensures Thins(sts, left)
  {
  }

  // ----- save the decision, apply it, load it again -----

  // A shard before the shrink, and its pods after the plan, if any, was applied.
  ghost predicate Ready(nodes: seq<Node>, reserve: seq<int>, replicas: nat, newPods: seq<Pod>) {
    && nodes != [] && Returns(nodes, replicas)
    && if Surplus(nodes, replicas) == 0 then ReadyUntouched(nodes, reserve, newPods)
       else ReadyShrunk(nodes, reserve, replicas, Surplus(nodes, replicas), newPods)
  }

  ghost predicate ReadyUntouched(nodes: seq<Node>, reserve: seq<int>, newPods: seq<Pod>) {
    && Ordered(nodes) && Elems(Ordinal(nodes)) == Live(|nodes|, reserve) && AllPrintable(nodes)
    && PodOrdinals(newPods) == LivePods(|nodes|, reserve)
  }

  ghost predicate ReadyShrunk(nodes: seq<Node>, reserve: seq<int>, replicas: nat, delta: nat, newPods: seq<Pod>) {
    && Ordered(nodes) && Elems(Ordinal(nodes)) == Live(|nodes|, reserve) && replicas + delta == |nodes|
    && AllPrintable(nodes) && DistinctIds(nodes) && |Masters(nodes)| <= replicas && !Tangled(nodes, delta)
    && PodOrdinals(newPods) == LivePods(replicas, reserve + Plan(nodes, delta))
  }

  // The pods get their own records back exactly when the shard had no surplus or
  // nothing was reserved at or below its highest slave.
  ghost predicate OwnRecordsIff(nodes: seq<Node>, reserve: seq<int>, replicas: nat, loaded: seq<Node>,
                                newPods: seq<Pod>)
    requires |loaded| == |newPods|
  {
    OwnRecords(nodes, loaded, newPods) <==>
    Surplus(nodes, replicas) == 0 || NoneReservedUpTo(reserve, TopSlave(nodes))
  }

  lemma {:induction false} ReloadShard(name: string, nodes: seq<Node>, reserve: seq<int>, replicas: nat,
                                       newPods: seq<Pod>)
    requires Ready(nodes, reserve, replicas, newPods)
    ensures |SaveShard(name, LeftOf(nodes, replicas))| == |newPods|
    ensures OwnRecordsIff(nodes, reserve, replicas, LoadShard(SaveShard(name, LeftOf(nodes, replicas)), newPods),
                          newPods)
  {
    var delta := Surplus(nodes, replicas);
    if delta > 0 {
      ReloadShrunk(name, nodes, reserve, replicas, delta, newPods);
    } else {
      ReloadUntouched(name, nodes, reserve, newPods);
    }
  }

  lemma {:induction false} ReloadShrunk(name: string, nodes: seq<Node>, reserve: seq<int>, replicas: nat, delta: nat,
                                        newPods: seq<Pod>)
    requires delta > 0 && ReadyShrunk(nodes, reserve, replicas, delta, newPods)
    requires InRange(Picked(nodes, delta), |nodes|)
    ensures var saved := SaveShard(name, Emptied(nodes, Picked(nodes, delta)));
            && |saved| == |newPods|
            && (OwnRecords(nodes, LoadShard(saved, newPods), newPods) <==> NoneReservedUpTo(reserve, TopSlave(nodes)))
  {
    ReturnsIff(nodes, delta);
    ShrinkThenReload(name, nodes, reserve, replicas, delta, newPods);
  }

  lemma {:induction false} ReloadUntouched(name: string, nodes: seq<Node>, reserve: seq<int>, newPods: seq<Pod>)
    requires ReadyUntouched(nodes, reserve, newPods)
    ensures |SaveShard(name, Present(nodes))| == |newPods|
    ensures OwnRecords(nodes, LoadShard(SaveShard(name, Present(nodes)), newPods), newPods)
  {
    CompactPresent(nodes);
    SaveLoadShard(name, Present(nodes), newPods);
    LivePodsUnique(Ordinal(nodes), |nodes|, reserve);
    var loaded := LoadShard(SaveShard(name, Present(nodes)), newPods);
    forall k | 0 <= k < |newPods|
      ensures exists n :: n in nodes && n.podIndex == newPods[k].ordinal && loaded[k] == Restored(n, newPods[k])
    {
      assert Ordinal(nodes)[k] == PodOrdinals(newPods)[k];
      assert nodes[k] in nodes;
    }
  }

  lemma {:induction false} SaveDropsTail(instance: string, left: seq<seq<Option<Node>>>, master: nat, n: nat)
    requires master <= n <= |left| && forall i :: master <= i < |left| ==> left[i] == []
    ensures Save(instance, left[..n]) == Save(instance, left[..master])
    decreases n
  {
    if n > master {
      SaveDropsTail(instance, left, master, n - 1);
      SaveDropsOne(instance, left, n - 1);
    }
  }

  lemma {:induction false} SaveDropsOne(instance: string, left: seq<seq<Option<Node>>>, i: nat)
    requires i < |left| && left[i] == []
    ensures Save(instance, left[..i + 1]) == Save(instance, left[..i])
  {
    SaveAdds(instance, left, i);
  }

  // The whole topology: what ensureShrink saves has one partition for each shard
  // that stays; loaded on the pods left, a shard's pods get their own records back
  // if and only if it had no surplus or nothing was reserved at or below its
  // highest slave.
  lemma {:induction false} ShrinkThenReloadAll(instance: string, sts: seq<seq<Node>>, reserves: seq<seq<int>>,
                                               master: nat,
                                               replicas: nat, left: seq<seq<Option<Node>>>, newPods: seq<seq<Pod>>)
    requires master <= |sts| == |left| && |newPods| == master == |reserves|
    requires forall i :: 0 <= i < master ==>
      Ready(sts[i], reserves[i], replicas, newPods[i]) && left[i] == LeftOf(sts[i], replicas)
    requires forall i :: master <= i < |sts| ==> left[i] == []
    ensures var topo := Save(instance, left);
            && |topo| == master && Fits(topo, newPods)
            && forall i :: 0 <= i < master ==>
                 OwnRecordsIff(sts[i], reserves[i], replicas, Load(topo, newPods)[i], newPods[i])
  {
    var topo := Save(instance, left);
    SavedStaying(instance, left, master);
    forall i | 0 <= i < master
      ensures |topo[i].topology| == |newPods[i]|
      ensures OwnRecordsIff(sts[i], reserves[i], replicas, LoadShard(topo[i].topology, newPods[i]), newPods[i])
    {
      assert topo[i] == SavePartition(instance, i, left[i]);
      ReloadShard(StatefulSetName(instance, i), sts[i], reserves[i], replicas, newPods[i]);
    }
  }

  lemma {:induction false} SavedStaying(instance: string, left: seq<seq<Option<Node>>>, master: nat)
    requires master <= |left| && (forall i :: 0 <= i < master ==> left[i] != [])
    requires forall i :: master <= i < |left| ==> left[i] == []
    ensures |Save(instance, left)| == master
    ensures forall i :: 0 <= i < master ==> Save(instance, left)[i] == SavePartition(instance, i, left[i])
  {
    var stay := left[..master];
    assert left[..|left|] == left;
    SaveDropsTail(instance, left, master, |left|);
    if master == 0 {
      assert stay == [];
    }
    forall i | 0 <= i < master
      ensures |Save(instance, stay)| == master && Save(instance, stay)[i] == SavePartition(instance, i, left[i])
    {
      SavedPartition(instance, stay, i);
    }
  }

  // The shard's StatefulSet runs exactly the listed pods, one of them the master.
  ghost predicate Backed(nodes: seq<Node>, sts: StatefulSet, master: int) {
    && Ordered(nodes) && sts.replicas == |nodes| && Elems(Ordinal(nodes)) == Pods(sts)
    && Masters(nodes) == {master}
  }

  // A whole shrink planned for `planned` replicas, the clean-up interrupted and
  // repeated any number of times while Spec.Replicas may be edited: a dropped shard
  // is gone exactly when some attempt's lookup of it was answered, and otherwise
  // untouched like a shard without surplus. Every other shard runs as many
  // pods as the last value says: those its plan keeps when that is the planned
  // one, and in any case a pod runs exactly when it is not reserved by then and
  // few enough unreserved ordinals lie below it. The master it was planned with
  // runs exactly when fewer of the pods the plan keeps lie below it than replicas
  // were applied last.
  lemma {:induction false} ShrinkKeepsMasters(sts: seq<seq<Node>>, master: nat, planned: nat, masters: seq<int>,
                                              replicas: seq<nat>, reached: seq<set<int>>,
                                              trace: seq<map<int, StatefulSet>>, i: nat, x: int)
    requires master <= |sts| == |masters| && planned >= 1 && i < |sts|
    requires Attempts(ShrinkMsg(Beyond(master, |sts|), Reserves(sts, master, planned)), replicas, reached, trace)
    requires forall k :: 0 <= k < |sts| ==> k in trace[0] && Backed(sts[k], trace[0][k], masters[k])
    ensures var end, last := trace[|replicas|], replicas[|replicas| - 1];
            && (i in end <==> i < master || !Reached(reached, |replicas|, i))
            && (i in end && i >= master ==> end[i] == trace[0][i])
            && (i < master && Surplus(sts[i], planned) == 0 ==> end[i] == trace[0][i] && masters[i] in Pods(end[i]))
            && (i < master && Surplus(sts[i], planned) > 0 ==>
                  var kept := Kept(sts[i], Surplus(sts[i], planned));
                  var reserve := trace[0][i].reserve + Plan(sts[i], Surplus(sts[i], planned));
                  && |Pods(end[i])| == end[i].replicas == last
                  && (last == planned ==> Pods(end[i]) == kept)
                  && (x in Pods(end[i]) <==> 0 <= x && x !in reserve && |FreeBelow(x, Elems(reserve))| < last)
                  && masters[i] in kept
                  && (masters[i] in Pods(end[i]) <==> |Below(kept, masters[i])| < last))
  {
    var msg := ShrinkMsg(Beyond(master, |sts|), Reserves(sts, master, planned));
    var last := replicas[|replicas| - 1];
    ReplayIsOnce(msg, replicas, reached, trace, i);
    if i < master {
      var nodes, delta := sts[i], Surplus(sts[i], planned);
      assert Backed(nodes, trace[0][i], masters[i]);
      if delta > 0 {
        var reserve := trace[0][i].reserve;
        PlanKeepsMaster(nodes, reserve, planned, delta, masters[i]);
        AppliedKeepsIff(nodes, reserve, planned, delta, masters[i], last, masters[i]);
        LiveMember(last, reserve + Plan(nodes, delta), x);
        LiveIs(last, reserve + Plan(nodes, delta));
      } else {
        MasterListed(nodes, masters[i]);
      }
    }
  }

  lemma {:induction false} MasterListed(nodes: seq<Node>, master: int)
    requires Masters(nodes) == {master}
    ensures master in Elems(Ordinal(nodes))
  {
    assert Masters(nodes) <= Elems(Ordinal(nodes));
  }
}
