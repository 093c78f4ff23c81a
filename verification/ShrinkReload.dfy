// A whole shrink of one shard: plan it, save the topology, apply the plan to the
// StatefulSet, and load the topology again on the pods that are left.
module ShrinkReload {
  import opened Text
  import opened Counting
  import opened Ordinals
  import opened Topology
  import opened ShrinkPlanner
  import opened ShrinkCorrect

  // The nodes whose pods were not picked, in order.
  function Survivors(pods: seq<Node>, picked: seq<int>): (r: seq<Node>)
    ensures |r| <= |pods|
  {
    if pods == [] then []
    else
      var n := |pods| - 1;
      Survivors(pods[..n], picked) + if pods[n].podIndex in picked then [] else [pods[n]]
  }

  lemma {:induction false} SurvivorsMember(pods: seq<Node>, picked: seq<int>, n: Node)
    ensures n in Survivors(pods, picked) <==> n in pods && n.podIndex !in picked
  {
    if pods != [] {
      var k := |pods| - 1;
      SurvivorsMember(pods[..k], picked, n);
      assert pods == pods[..k] + [pods[k]];
    }
  }

  // The survivors are sorted by ordinal and are the pods not picked.
  lemma {:induction false} SurvivorsOrdinals(pods: seq<Node>, picked: seq<int>)
    requires Ordered(pods)
    ensures Ordered(Survivors(pods, picked))
    ensures Elems(Ordinal(Survivors(pods, picked))) == Elems(Ordinal(pods)) - Elems(picked)
  {
    if pods != [] {
      var n := |pods| - 1;
      OrderedInit(pods);
      SurvivorsOrdinals(pods[..n], picked);
      var rest := Survivors(pods[..n], picked);
      if pods[n].podIndex !in picked {
        var all := Survivors(pods, picked);
        assert Ordinal(all) == Ordinal(rest) + [pods[n].podIndex];
        forall i | 0 <= i < |rest|
          ensures Ordinal(rest)[i] < pods[n].podIndex
        {
          assert Ordinal(rest)[i] in Elems(Ordinal(rest));
        }
        ElemsConcat(Ordinal(rest), [pods[n].podIndex]);
        assert Elems([pods[n].podIndex]) == {pods[n].podIndex};
      } else {
        assert Survivors(pods, picked) == rest;
      }
    }
  }

  lemma {:induction false} CompactMember(nodes: seq<Option<Node>>, n: Node)
    ensures n in Compact(nodes) <==> Some(n) in nodes
  {
    if nodes != [] {
      var k := |nodes| - 1;
      CompactMember(nodes[..k], n);
      assert nodes == nodes[..k] + [nodes[k]];
    }
  }

  // Position by position: nil exactly where the pod was picked.
  predicate NilsMatch(pods: seq<Node>, nodes: seq<Option<Node>>, picked: seq<int>) {
    && |nodes| == |pods|
    && forall j :: 0 <= j < |pods| ==> nodes[j] == if pods[j].podIndex in picked then None else Some(pods[j])
  }

  lemma {:induction false} CompactIsSurvivors(pods: seq<Node>, nodes: seq<Option<Node>>, picked: seq<int>)
    requires NilsMatch(pods, nodes, picked)
    ensures Compact(nodes) == Survivors(pods, picked)
  {
    if pods != [] {
      var n := |pods| - 1;
      CompactIsSurvivors(pods[..n], nodes[..n], picked);
    }
  }

  // The list the planner leaves in memory.
  function Emptied(pods: seq<Node>, picked: seq<int>): (r: seq<Option<Node>>)
    ensures |r| == |pods|
  {
    NilAll(Present(pods), picked)
  }

  // The records that stay in memory are those of the pods that stay, exactly when
  // nothing is reserved at or below the highest slave.
  lemma {:induction false} RecordsKeptIff(pods: seq<Node>, reserve: seq<int>, delta: int)
    requires Ordered(pods) && delta > 0 && Elems(Ordinal(pods)) == Live(|pods|, reserve)
    requires TopSlave(pods) < |pods|
    ensures Compact(Emptied(pods, Picked(pods, delta))) == Survivors(pods, Picked(pods, delta))
       <==> NoneReservedUpTo(reserve, TopSlave(pods))
  {
    ReturnsIff(pods, delta);
    RecordsAligned(pods, delta);
    AlignedIff(pods, reserve, delta);
  }

  lemma {:induction false} RecordsAligned(pods: seq<Node>, delta: int)
    requires Ordered(pods) && delta > 0 && InRange(Picked(pods, delta), |pods|)
    ensures Compact(Emptied(pods, Picked(pods, delta))) == Survivors(pods, Picked(pods, delta))
       <==> Aligned(pods, delta)
  {
    var picked := Picked(pods, delta);
    var nodes := Emptied(pods, picked);
    NilsAligned(pods, delta);
    if Aligned(pods, delta) {
      CompactIsSurvivors(pods, nodes, picked);
    } else {
      LostRecord(pods, delta);
    }
  }

  // Otherwise the node at position `highest pick` is dropped although its pod
  // stays.
  lemma {:induction false} LostRecord(pods: seq<Node>, delta: int)
    requires Ordered(pods) && delta > 0 && InRange(Picked(pods, delta), |pods|) && !Aligned(pods, delta)
    ensures var picked := Picked(pods, delta);
            var lost := pods[picked[0]];
            && lost in Survivors(pods, picked)
            && lost !in Compact(Emptied(pods, picked))
  {
    var picked := Picked(pods, delta);
    var h := picked[0];
    var lost, nodes := pods[h], Emptied(pods, picked);
    assert h in picked;
    PickedAreHighest(pods, delta);
    OrdinalAtLeastPosition(Ordinal(pods), h);
    SurvivorsMember(pods, picked, lost);
    CompactMember(nodes, lost);
    forall j | 0 <= j < |nodes|
      ensures nodes[j] != Some(lost)
    {
      assert j != h ==> Ordinal(pods)[j] != Ordinal(pods)[h];
    }
  }

  predicate DistinctIds(pods: seq<Node>) {
    forall i, j :: 0 <= i < j < |pods| ==> pods[i].nodeId != pods[j].nodeId
  }

  predicate AllPrintable(pods: seq<Node>) {
    forall i :: 0 <= i < |pods| ==> Printable(pods[i])
  }

  function PodOrdinals(pods: seq<Pod>): (r: seq<int>)
    ensures |r| == |pods| && forall i :: 0 <= i < |r| ==> r[i] == pods[i].ordinal
  {
    seq(|pods|, i requires 0 <= i < |pods| => pods[i].ordinal)
  }

  lemma {:induction false} CompactPrintable(nodes: seq<Option<Node>>, pods: seq<Node>, picked: seq<int>)
    requires AllPrintable(pods) && InRange(picked, |pods|) && nodes == Emptied(pods, picked)
    ensures forall j :: 0 <= j < |nodes| && nodes[j].Some? ==> Printable(nodes[j].value)
  {
  }

  // Every pod the StatefulSet still runs gets back the record it had before.
  ghost predicate OwnRecords(pods: seq<Node>, loaded: seq<Node>, newPods: seq<Pod>)
    requires |loaded| == |newPods|
  {
    forall k :: 0 <= k < |newPods| ==>
      exists n :: n in pods && n.podIndex == newPods[k].ordinal && loaded[k] == Restored(n, newPods[k])
  }

  // Shrink, save, apply, reload: `newPods` are the pods of the StatefulSet after
  // the plan was applied, sorted by ordinal, with whatever addresses they have.
  // The saved shard has one record for each of them, and each gets its own record
  // back if and only if nothing was reserved at or below the highest slave.
  lemma {:induction false} ShrinkThenReload(name: string, pods: seq<Node>, reserve: seq<int>,
                                            replicas: nat, delta: nat, newPods: seq<Pod>)
    requires Ordered(pods) && delta > 0 && replicas + delta == |pods|
    requires Elems(Ordinal(pods)) == Live(|pods|, reserve)
    requires |Masters(pods)| <= replicas && !Tangled(pods, delta)
    requires TopSlave(pods) < |pods| && AllPrintable(pods) && DistinctIds(pods)
    requires PodOrdinals(newPods) == LivePods(replicas, reserve + Plan(pods, delta))
    ensures var saved := SaveShard(name, Emptied(pods, Picked(pods, delta)));
            && |saved| == replicas == |newPods|
            && (OwnRecords(pods, LoadShard(saved, newPods), newPods) <==> NoneReservedUpTo(reserve, TopSlave(pods)))
  {
    var picked := Picked(pods, delta);
    var nodes := Emptied(pods, picked);
    var kept, saved := Compact(nodes), SaveShard(name, nodes);
    ReturnsIff(pods, delta);
    SurvivorsAreNewPods(pods, reserve, replicas, delta);
    KeptCount(pods, replicas, delta);
    CompactPrintable(nodes, pods, picked);
    SaveLoadShard(name, nodes, newPods);
    var loaded := LoadShard(saved, newPods);
    assert forall k :: 0 <= k < |newPods| ==> loaded[k] == Restored(kept[k], newPods[k]);
    AlignedIff(pods, reserve, delta);
    if Aligned(pods, delta) {
      RecordsAligned(pods, delta);
      RecordsBack(pods, kept, loaded, newPods, picked);
    } else {
      LostRecord(pods, delta);
      RecordMissing(pods, kept, loaded, newPods, picked, pods[picked[0]]);
    }
  }

  lemma {:induction false} RecordsBack(pods: seq<Node>, kept: seq<Node>, loaded: seq<Node>, newPods: seq<Pod>,
                                       picked: seq<int>)
    requires |kept| == |loaded| == |newPods| && kept == Survivors(pods, picked)
    requires forall k :: 0 <= k < |newPods| ==> loaded[k] == Restored(kept[k], newPods[k])
    requires PodOrdinals(newPods) == Ordinal(kept)
    ensures OwnRecords(pods, loaded, newPods)
  {
    forall k | 0 <= k < |newPods|
      ensures exists n :: n in pods && n.podIndex == newPods[k].ordinal && loaded[k] == Restored(n, newPods[k])
    {
      SurvivorsMember(pods, picked, kept[k]);
      assert Ordinal(kept)[k] == PodOrdinals(newPods)[k];
      assert kept[k] in pods && kept[k].podIndex == newPods[k].ordinal;
    }
  }

  // A pod whose record is not among those kept cannot get it back.
  lemma {:induction false} RecordMissing(pods: seq<Node>, kept: seq<Node>, loaded: seq<Node>, newPods: seq<Pod>,
                                         picked: seq<int>, lost: Node)
    requires Ordered(pods) && DistinctIds(pods) && |kept| == |loaded| == |newPods|
    requires forall k :: 0 <= k < |newPods| ==> loaded[k] == Restored(kept[k], newPods[k]) && kept[k] in pods
    requires PodOrdinals(newPods) == Ordinal(Survivors(pods, picked))
    requires lost in Survivors(pods, picked) && lost !in kept
    ensures !OwnRecords(pods, loaded, newPods)
  {
    SurvivorsMember(pods, picked, lost);
    var s := Survivors(pods, picked);
    var k :| 0 <= k < |s| && s[k] == lost;
    assert PodOrdinals(newPods)[k] == lost.podIndex;
    var got := kept[k];
    if OwnRecords(pods, loaded, newPods) {
      var n :| n in pods && n.podIndex == newPods[k].ordinal && loaded[k] == Restored(n, newPods[k]);
      SameOrdinalSameNode(pods, n, lost);
      SameIdSameNode(pods, n, got);
      assert false;
    }
  }

  lemma {:induction false} SameOrdinalSameNode(pods: seq<Node>, a: Node, b: Node)
    requires Ordered(pods) && a in pods && b in pods && a.podIndex == b.podIndex
    ensures a == b
  {
    var i :| 0 <= i < |pods| && pods[i] == a;
    var j :| 0 <= j < |pods| && pods[j] == b;
    assert Ordinal(pods)[i] == Ordinal(pods)[j];
  }

  lemma {:induction false} SameIdSameNode(pods: seq<Node>, a: Node, b: Node)
    requires DistinctIds(pods) && a in pods && b in pods && a.nodeId == b.nodeId
    ensures a == b
  {
  }

  lemma {:induction false} SurvivorsAreNewPods(pods: seq<Node>, reserve: seq<int>, replicas: nat, delta: nat)
    requires Ordered(pods) && replicas + delta == |pods| && Elems(Ordinal(pods)) == Live(|pods|, reserve)
    requires |Masters(pods)| <= replicas && !Tangled(pods, delta)
    ensures Ordinal(Survivors(pods, Picked(pods, delta))) == LivePods(replicas, reserve + Plan(pods, delta))
  {
    PlanIff(pods, reserve, replicas, delta);
    SurvivorsOrdinals(pods, Picked(pods, delta));
    LivePodsUnique(Ordinal(Survivors(pods, Picked(pods, delta))), replicas, reserve + Plan(pods, delta));
  }

  // As many records are kept as pods: each distinct pick empties one position.
  lemma {:induction false} KeptCount(pods: seq<Node>, replicas: nat, delta: nat)
    requires Ordered(pods) && replicas + delta == |pods| && |Masters(pods)| <= replicas
    requires InRange(Picked(pods, delta), |pods|)
    ensures |Compact(Emptied(pods, Picked(pods, delta)))| == replicas
    ensures forall k :: 0 <= k < replicas ==> Compact(Emptied(pods, Picked(pods, delta)))[k] in pods
  {
    var picked := Picked(pods, delta);
    var nodes := Emptied(pods, picked);
    PickedAll(pods, delta);
    PickedCount(pods, delta);
    CompactCount(nodes);
    assert Holes(nodes) == Elems(picked);
    CompactInPods(pods, picked);
  }

  lemma {:induction false} CompactInPods(pods: seq<Node>, picked: seq<int>)
    ensures var kept := Compact(Emptied(pods, picked)); forall k :: 0 <= k < |kept| ==> kept[k] in pods
  {
    var nodes := Emptied(pods, picked);
    forall k | 0 <= k < |Compact(nodes)|
      ensures Compact(nodes)[k] in pods
    {
      CompactMember(nodes, Compact(nodes)[k]);
      var j :| 0 <= j < |nodes| && nodes[j] == Some(Compact(nodes)[k]);
      assert pods[j] == Compact(nodes)[k];
    }
  }

  function Holes(nodes: seq<Option<Node>>): (r: set<int>) {
    set j | 0 <= j < |nodes| && nodes[j] == None
  }

  lemma {:induction false} CompactCount(nodes: seq<Option<Node>>)
    ensures |Compact(nodes)| == |nodes| - |Holes(nodes)|
  {
    if nodes != [] {
      var n := |nodes| - 1;
      CompactCount(nodes[..n]);
      assert Holes(nodes) == Holes(nodes[..n]) + if nodes[n] == None then {n} else {};
    }
  }
}
