// What the shrink planners guarantee: which pods stay live, when the plan is
// right, when the node list is emptied at the right positions, and what the
// topology looks like once it is loaded again.
module ShrinkCorrect {
  import opened Text
  import opened Counting
  import opened Ordinals
  import opened Topology
  import opened ShrinkPlanner

  function Ordinal(pods: seq<Node>): (r: seq<int>)
    ensures |r| == |pods| && forall i :: 0 <= i < |r| ==> r[i] == pods[i].podIndex
  {
    seq(|pods|, i requires 0 <= i < |pods| => pods[i].podIndex)
  }

  function Masters(pods: seq<Node>): (r: set<int>)
    ensures r <= Elems(Ordinal(pods))
  {
    if pods == [] then {}
    else
      var n := |pods| - 1;
      assert Ordinal(pods) == Ordinal(pods[..n]) + [pods[n].podIndex];
      Masters(pods[..n]) + if pods[n].role == MASTER then {pods[n].podIndex} else {}
  }

  lemma {:induction false} MastersMember(pods: seq<Node>, x: int)
    ensures x in Masters(pods) <==> exists i :: 0 <= i < |pods| && pods[i].podIndex == x && pods[i].role == MASTER
  {
    if pods != [] {
      MastersMember(pods[..|pods| - 1], x);
    }
  }

  // The pods of a shard as the operator lists them: sorted by ordinal.
  predicate Ordered(pods: seq<Node>) {
    StrictlyAscending(Ordinal(pods)) && forall i :: 0 <= i < |pods| ==> pods[i].podIndex >= 0
  }

  lemma {:induction false} OrderedInit(pods: seq<Node>)
    requires Ordered(pods) && pods != []
    ensures var n := |pods| - 1;
            && Ordered(pods[..n])
            && Ordinal(pods) == Ordinal(pods[..n]) + [pods[n].podIndex]
            && Elems(Ordinal(pods)) == Elems(Ordinal(pods[..n])) + {pods[n].podIndex}
            && (forall x :: x in Elems(Ordinal(pods[..n])) ==> x < pods[n].podIndex)
  {
    var n := |pods| - 1;
    var o := Ordinal(pods);
    assert o[..n] == Ordinal(pods[..n]);
    assert o == o[..n] + [o[n]];
  }

  // ----- the scan -----

  predicate StrictlyDescending(s: seq<int>) {
    forall i, j :: 0 <= i < j < |s| ==> s[i] > s[j]
  }

  // The picks are the highest non-masters: every other non-master is below them.
  ghost predicate Highest(all: set<int>, masters: set<int>, picked: set<int>) {
    && masters <= all
    && picked <= all - masters
    && forall x, d :: x in all && x !in masters && x !in picked && d in picked ==> x < d
  }

  lemma {:induction false} AddTop(all: set<int>, masters: set<int>, picked: set<int>, top: int)
    requires Highest(all, masters, picked) && forall x :: x in all ==> x < top
    ensures Highest(all + {top}, masters, picked + {top})
    ensures Highest(all + {top}, masters + {top}, picked)
    ensures picked == all - masters ==> picked + {top} == all + {top} - masters
    ensures picked == all - masters ==> picked == all + {top} - (masters + {top})
  {
  }

  lemma {:induction false} PickedSets(pods: seq<Node>, delta: int)
    requires Ordered(pods) && delta >= 0
    ensures Highest(Elems(Ordinal(pods)), Masters(pods), Elems(Picked(pods, delta)))
    ensures |Picked(pods, delta)| < delta ==>
      Elems(Picked(pods, delta)) == Elems(Ordinal(pods)) - Masters(pods)
  {
    if delta > 0 && pods != [] {
      var n := |pods| - 1;
      var init, last := pods[..n], pods[n].podIndex;
      OrderedInit(pods);
      if pods[n].role != MASTER {
        PickedSets(init, delta - 1);
        var rest := Picked(init, delta - 1);
        AddTop(Elems(Ordinal(init)), Masters(init), Elems(rest), last);
        ElemsCons(last, rest);
      } else {
        PickedSets(init, delta);
        AddTop(Elems(Ordinal(init)), Masters(init), Elems(Picked(init, delta)), last);
      }
    }
  }

  lemma {:induction false} ElemsCons(x: int, s: seq<int>)
    ensures Elems([x] + s) == Elems(s) + {x}
  {
  }

  lemma {:induction false} DescendingCons(x: int, s: seq<int>)
    requires StrictlyDescending(s) && forall y :: y in s ==> y < x
    ensures StrictlyDescending([x] + s)
  {
    var all := [x] + s;
    assert forall i :: 0 <= i < |s| ==> all[i + 1] == s[i] && s[i] in s;
  }

  lemma {:induction false} PickedDescend(pods: seq<Node>, delta: int)
    requires Ordered(pods) && delta >= 0
    ensures StrictlyDescending(Picked(pods, delta))
  {
    if delta > 0 && pods != [] {
      var n := |pods| - 1;
      var init, last := pods[..n], pods[n].podIndex;
      OrderedInit(pods);
      if pods[n].role != MASTER {
        PickedDescend(init, delta - 1);
        PickedSets(init, delta - 1);
        var rest := Picked(init, delta - 1);
        assert forall y :: y in rest ==> y in Elems(rest);
        DescendingCons(last, rest);
      } else {
        PickedDescend(init, delta);
      }
    }
  }

  lemma {:induction false} PickedAreHighest(pods: seq<Node>, delta: int)
    requires Ordered(pods) && delta >= 0
    ensures Highest(Elems(Ordinal(pods)), Masters(pods), Elems(Picked(pods, delta)))
    ensures StrictlyDescending(Picked(pods, delta))
    ensures |Picked(pods, delta)| < delta ==>
      Elems(Picked(pods, delta)) == Elems(Ordinal(pods)) - Masters(pods)
  {
    PickedSets(pods, delta);
    PickedDescend(pods, delta);
  }

  // A master the scan went past: some pick lies below it.
  ghost predicate Passed(masters: set<int>, picked: set<int>, a: int) {
    a in masters && exists d :: d in picked && d < a
  }

  // masterID is the lowest master passed, or its initial value when none was.
  ghost predicate LowestPassed(masters: set<int>, picked: set<int>, seen: int, m: int) {
    || (m == seen && forall a :: !Passed(masters, picked, a))
    || (Passed(masters, picked, m) && forall a :: Passed(masters, picked, a) ==> m <= a)
  }

  lemma {:induction false} ScanMasterIsLowest(pods: seq<Node>, delta: int, seen: int)
    requires Ordered(pods) && delta >= 0 && |Picked(pods, delta)| == delta
    ensures LowestPassed(Masters(pods), Elems(Picked(pods, delta)), seen, ScanMaster(pods, delta, seen))
  {
    if delta > 0 {
      var n := |pods| - 1;
      var last, init := pods[n].podIndex, pods[..n];
      OrderedInit(pods);
      if pods[n].role != MASTER {
        ScanMasterIsLowest(init, delta - 1, seen);
        HighPickPassesNothing(Masters(init), Elems(Picked(init, delta - 1)), last);
        assert Masters(pods) == Masters(init);
        assert Elems(Picked(pods, delta)) == Elems(Picked(init, delta - 1)) + {last};
      } else {
        ScanMasterIsLowest(init, delta, last);
        PickedAreHighest(init, delta);
        var picked := Elems(Picked(init, delta));
        TopMasterPassed(Masters(init), picked, last, ScanMaster(pods, delta, seen), seen, Picked(init, delta)[0]);
      }
    }
  }

  lemma {:induction false} HighPickPassesNothing(masters: set<int>, picked: set<int>, top: int)
    requires forall a :: a in masters ==> a < top
    ensures forall a :: Passed(masters, picked + {top}, a) <==> Passed(masters, picked, a)
  {
  }

  lemma {:induction false} TopMasterPassed(masters: set<int>, picked: set<int>, top: int, m: int, seen: int, d: int)
    requires forall a :: a in masters ==> a < top
    requires d in picked && d < top
    requires LowestPassed(masters, picked, top, m)
    ensures LowestPassed(masters + {top}, picked, seen, m)
  {
    assert Passed(masters + {top}, picked, top);
    assert forall a :: Passed(masters + {top}, picked, a) <==> a == top || Passed(masters, picked, a);
  }

  lemma {:induction false} OrdinalCount(pods: seq<Node>)
    requires Ordered(pods)
    ensures |Elems(Ordinal(pods))| == |pods|
  {
    ElemsOfDistinct(Ordinal(pods));
  }

  lemma {:induction false} PickedCount(pods: seq<Node>, delta: int)
    requires Ordered(pods) && delta >= 0
    ensures |Elems(Picked(pods, delta))| == |Picked(pods, delta)|
  {
    PickedAreHighest(pods, delta);
    ElemsOfDistinct(Picked(pods, delta));
  }

  // All surplus pods are found exactly when enough of them are not masters.
  lemma {:induction false} PickedAll(pods: seq<Node>, delta: nat)
    requires Ordered(pods)
    ensures |Picked(pods, delta)| == delta <==> delta <= |pods| - |Masters(pods)|
  {
    var all, masters, picked := Elems(Ordinal(pods)), Masters(pods), Elems(Picked(pods, delta));
    assert |picked| == |Picked(pods, delta)| by { PickedCount(pods, delta); }
    assert |all| == |pods| by { OrdinalCount(pods); }
    assert |picked| == delta <==> delta <= |all| - |masters| by {
      PickedAreHighest(pods, delta);
      PickedCount(pods, delta);
      CountPicks(all, masters, picked, delta);
    }
  }

  lemma {:induction false} CountPicks(all: set<int>, masters: set<int>, picked: set<int>, delta: int)
    requires masters <= all && picked <= all - masters
    requires |picked| <= delta && (|picked| < delta ==> picked == all - masters)
    ensures |picked| == delta <==> delta <= |all| - |masters|
  {
    DifferenceSize(all, masters);
    SubsetSize(picked, all - masters);
  }

  lemma {:induction false} DifferenceSize(a: set<int>, b: set<int>)
    requires b <= a
    ensures |a - b| == |a| - |b|
  {
    assert a == (a - b) + b;
  }

  // ----- the picks, said without the scan -----

  function Slaves(pods: seq<Node>): (r: set<int>) {
    Elems(Ordinal(pods)) - Masters(pods)
  }

  function Above(s: set<int>, x: int): (r: set<int>) {
    set y | y in s && y > x
  }

  // The highest ordinal that is not a master's, -1 when there is none.
  function TopSlave(pods: seq<Node>): (h: int) {
    if pods == [] then -1
    else
      var n := |pods| - 1;
      if pods[n].role != MASTER then pods[n].podIndex else TopSlave(pods[..n])
  }

  lemma {:induction false} TopSlaveIsFirstPick(pods: seq<Node>, delta: int)
    requires Ordered(pods) && delta > 0
    ensures Picked(pods, delta) == [] <==> TopSlave(pods) == -1
    ensures Picked(pods, delta) != [] ==> Picked(pods, delta)[0] == TopSlave(pods) >= 0
  {
    if pods != [] {
      OrderedInit(pods);
      if pods[|pods| - 1].role == MASTER {
        TopSlaveIsFirstPick(pods[..|pods| - 1], delta);
      }
    }
  }

  // A pod is picked exactly when it is no master and fewer than `delta` others of
  // its kind lie above it.
  lemma {:induction false} PickIff(pods: seq<Node>, delta: nat, x: int)
    requires Ordered(pods)
    ensures x in Picked(pods, delta) <==> x in Slaves(pods) && |Above(Slaves(pods), x)| < delta
  {
    PickedAreHighest(pods, delta);
    PickedCount(pods, delta);
    PickIffSets(Elems(Ordinal(pods)), Masters(pods), Elems(Picked(pods, delta)), delta, x);
  }

  lemma {:induction false} PickIffSets(all: set<int>, masters: set<int>, picked: set<int>, delta: nat, x: int)
    requires Highest(all, masters, picked) && |picked| <= delta && (|picked| < delta ==> picked == all - masters)
    ensures x in picked <==> x in all - masters && |Above(all - masters, x)| < delta
  {
    var above := Above(all - masters, x);
    if x in picked {
      assert above <= picked - {x};
      SubsetSize(above, picked - {x});
    } else if x in all - masters {
      assert picked <= above;
      SubsetSize(picked, above);
    }
  }

  // ----- the reserve plan -----

  // A pick d between a master a the scan passed and a higher master b: ordinals
  // above masterID are not reserved, yet d is not at the top.
  ghost predicate TangledSets(masters: set<int>, picked: set<int>) {
    exists a, d, b :: Passed(masters, picked, a) && d in picked && b in masters && a < d < b
  }

  // Slave, master, slave, master, from low to high.
  predicate Alternating(slaves: set<int>, masters: set<int>, low: int, a: int, d: int, b: int) {
    low in slaves && a in masters && d in slaves && b in masters && low < a < d < b
  }

  // Such a pattern whose lowest slave has fewer than `delta` slaves above it.
  ghost predicate TangledRoles(slaves: set<int>, masters: set<int>, delta: int) {
    exists low, a, d, b :: Alternating(slaves, masters, low, a, d, b) && |Above(slaves, low)| < delta
  }

  ghost predicate Tangled(pods: seq<Node>, delta: int) {
    TangledRoles(Slaves(pods), Masters(pods), delta)
  }

  lemma {:induction false} TangledIff(pods: seq<Node>, delta: nat)
    requires Ordered(pods)
    ensures Tangled(pods, delta) <==> TangledSets(Masters(pods), Elems(Picked(pods, delta)))
  {
    var slaves, masters, picked := Slaves(pods), Masters(pods), Elems(Picked(pods, delta));
    if low, a, d, b :| Alternating(slaves, masters, low, a, d, b) && |Above(slaves, low)| < delta {
      PickIff(pods, delta, low);
      PickIff(pods, delta, d);
      SubsetSize(Above(slaves, d), Above(slaves, low));
      assert low in picked && d in picked && Passed(masters, picked, a);
    }
    if a, d, b :| Passed(masters, picked, a) && d in picked && b in masters && a < d < b {
      var low :| low in picked && low < a;
      PickIff(pods, delta, low);
      PickIff(pods, delta, d);
      assert Alternating(slaves, masters, low, a, d, b);
    }
  }

  // The pods left: all but the picks.
  function Kept(pods: seq<Node>, delta: int): (r: set<int>)
    requires delta >= 0
  {
    Elems(Ordinal(pods)) - Elems(Picked(pods, delta))
  }

  // The plan as a set: the picks not above masterID.
  function UpTo(picked: set<int>, m: int): (r: set<int>) {
    set x | x in picked && x <= m
  }

  lemma {:induction false} PlanIsUpTo(pods: seq<Node>, delta: int)
    requires delta >= 0
    ensures Elems(Plan(pods, delta)) == UpTo(Elems(Picked(pods, delta)), ScanMaster(pods, delta, 0))
  {
  }

  lemma {:induction false} PlanSuffices(all: set<int>, masters: set<int>, picked: set<int>, m: int,
                                        reserve: set<int>, replicas: nat)
    requires IsLive(all, |all|, reserve) && Highest(all, masters, picked) && LowestPassed(masters, picked, 0, m)
    requires |picked| == |all| - replicas && !TangledSets(masters, picked)
    ensures IsLive(all - picked, replicas, reserve + UpTo(picked, m))
  {
    DifferenceSize(all, picked);
    forall x, y | y in all - picked && 0 <= x < y && x !in reserve + UpTo(picked, m)
      ensures x in all - picked
    {
      assert x in all;
      if x in picked {
        // y stays above a pick, so it is a master, and the scan passed it.
        assert y in masters;
        assert Passed(masters, picked, y);
        assert false;
      }
    }
  }

  lemma {:induction false} PlanNeeds(all: set<int>, masters: set<int>, picked: set<int>, m: int,
                                     reserve: set<int>, replicas: nat)
    requires IsLive(all, |all|, reserve) && Highest(all, masters, picked) && LowestPassed(masters, picked, 0, m)
    requires IsLive(all - picked, replicas, reserve + UpTo(picked, m))
    ensures !TangledSets(masters, picked)
  {
    forall a, d, b | Passed(masters, picked, a) && d in picked && b in masters && a < d
      ensures !(d < b)
    {
      assert b in all - picked;
      assert d !in all - picked && d !in reserve + UpTo(picked, m);
    }
  }

  // What the scan delivers, as sets: the picks, and masterID once the surplus is
  // used up.
  ghost predicate ScanResult(all: set<int>, masters: set<int>, picked: set<int>, m: int, delta: nat) {
    && Highest(all, masters, picked)
    && |picked| <= delta
    && (|picked| == delta <==> delta <= |all| - |masters|)
    && (|picked| == delta ==> LowestPassed(masters, picked, 0, m))
  }

  lemma {:induction false} ScanDelivers(pods: seq<Node>, delta: nat)
    requires Ordered(pods)
    ensures |Elems(Ordinal(pods))| == |pods|
    ensures ScanResult(Elems(Ordinal(pods)), Masters(pods), Elems(Picked(pods, delta)), ScanMaster(pods, delta, 0),
                       delta)
  {
    OrdinalCount(pods);
    PickedAreHighest(pods, delta);
    PickedCount(pods, delta);
    PickedAll(pods, delta);
    if |Picked(pods, delta)| == delta {
      ScanMasterIsLowest(pods, delta, 0);
    }
  }

  lemma {:induction false} PlanIffSets(all: set<int>, masters: set<int>, picked: set<int>, m: int, delta: nat,
                                       reserve: set<int>)
    requires IsLive(all, |all|, reserve) && delta <= |all| && ScanResult(all, masters, picked, m, delta)
    ensures IsLive(all - picked, |all| - delta, reserve + UpTo(picked, m))
       <==> delta <= |all| - |masters| && !TangledSets(masters, picked)
  {
    DifferenceSize(all, picked);
    if |picked| == delta {
      if !TangledSets(masters, picked) {
        PlanSuffices(all, masters, picked, m, reserve, |all| - delta);
      } else if IsLive(all - picked, |all| - delta, reserve + UpTo(picked, m)) {
        PlanNeeds(all, masters, picked, m, reserve, |all| - delta);
      }
    }
  }

  // For any roles and any existing reserve list: after the plan is added, the
  // StatefulSet runs exactly the pods that were not picked, if and only if there
  // are no more masters than replicas and no pick is tangled between masters.
  lemma {:induction false} PlanIff(pods: seq<Node>, reserve: seq<int>, replicas: nat, delta: nat)
    requires Ordered(pods) && replicas + delta == |pods| && Elems(Ordinal(pods)) == Live(|pods|, reserve)
    ensures Live(replicas, reserve + Plan(pods, delta)) == Kept(pods, delta)
       <==> |Masters(pods)| <= replicas && !Tangled(pods, delta)
  {
    var kept := Kept(pods, delta);
    assert Live(replicas, reserve + Plan(pods, delta)) == kept <==>
      IsLive(kept, replicas, Elems(reserve + Plan(pods, delta))) by {
      LiveCharacterised(kept, replicas, reserve + Plan(pods, delta));
    }
    PlanAsSets(pods, reserve, delta);
    assert IsLive(kept, replicas, Elems(reserve + Plan(pods, delta)))
      <==> delta <= |pods| - |Masters(pods)| && !Tangled(pods, delta) by {
      LiveIs(|pods|, reserve);
      ScanDelivers(pods, delta);
      TangledIff(pods, delta);
      PlanIffSets(Elems(Ordinal(pods)), Masters(pods), Elems(Picked(pods, delta)), ScanMaster(pods, delta, 0),
                  delta, Elems(reserve));
    }
  }

  lemma {:induction false} PlanAsSets(pods: seq<Node>, reserve: seq<int>, delta: nat)
    ensures Elems(reserve + Plan(pods, delta))
         == Elems(reserve) + UpTo(Elems(Picked(pods, delta)), ScanMaster(pods, delta, 0))
  {
    ElemsConcat(reserve, Plan(pods, delta));
    PlanIsUpTo(pods, delta);
  }

  // The case the operator is in: one master and at least one replica to keep.
  // Exactly the surplus goes, the master stays, and the StatefulSet runs what is
  // left, whatever was reserved before.
  lemma {:induction false} PlanKeepsMaster(pods: seq<Node>, reserve: seq<int>, replicas: nat, delta: nat, master: int)
    requires Ordered(pods) && 1 <= replicas && replicas + delta == |pods|
    requires Elems(Ordinal(pods)) == Live(|pods|, reserve)
    requires Masters(pods) == {master}
    ensures Live(replicas, reserve + Plan(pods, delta)) == Kept(pods, delta)
    ensures |Kept(pods, delta)| == replicas && master in Kept(pods, delta)
  {
    OneMasterUntangled(master, Elems(Picked(pods, delta)));
    TangledIff(pods, delta);
    PlanIff(pods, reserve, replicas, delta);
    PickedAreHighest(pods, delta);
    LiveIs(replicas, reserve + Plan(pods, delta));
  }

  lemma {:induction false} OneMasterUntangled(master: int, picked: set<int>)
    ensures !TangledSets({master}, picked)
  {
  }

  // ----- the three copies agree -----

  // On picks in descending order, stopping at the first one above the master
  // skips exactly what `continue` skips.
  lemma {:induction false} BreakIsContinue(picked: seq<int>, m: int)
    requires StrictlyDescending(picked)
    ensures StopAbove(picked, m) == KeepUpTo(picked, m)
  {
    if picked != [] {
      if picked[|picked| - 1] > m {
        KeepNothing(picked, m);
      } else {
        BreakIsContinue(picked[..|picked| - 1], m);
        KeepLast(picked, m);
      }
    }
  }

  lemma {:induction false} KeepNothing(picked: seq<int>, m: int)
    requires StrictlyDescending(picked) && picked != [] && picked[|picked| - 1] > m
    ensures KeepUpTo(picked, m) == []
  {
    if |picked| > 1 {
      KeepNothing(picked[1..], m);
    }
  }

  lemma {:induction false} KeepLast(picked: seq<int>, m: int)
    requires picked != [] && picked[|picked| - 1] <= m
    ensures KeepUpTo(picked, m) == [picked[|picked| - 1]] + KeepUpTo(picked[..|picked| - 1], m)
  {
    if |picked| > 1 {
      KeepLast(picked[1..], m);
      assert picked[1..][..|picked| - 2] == picked[..|picked| - 1][1..];
    }
  }

  lemma {:induction false} CopiesAgree(pods: seq<Node>, delta: int)
    requires Ordered(pods) && delta > 0
    ensures StopAbove(Picked(pods, delta), ScanMaster(pods, delta, 0)) == Plan(pods, delta)
  {
    PickedAreHighest(pods, delta);
    BreakIsContinue(Picked(pods, delta), ScanMaster(pods, delta, 0));
  }

  // ----- standard mode: the old reserve list is dropped -----

  // A pod that stays: a master, or a slave with `delta` slaves above it.
  predicate Stays(pods: seq<Node>, delta: int, y: int) {
    y in Masters(pods) || (y in Slaves(pods) && |Above(Slaves(pods), y)| >= delta)
  }

  lemma {:induction false} KeptIff(pods: seq<Node>, delta: nat, y: int)
    requires Ordered(pods)
    ensures y in Kept(pods, delta) <==> Stays(pods, delta, y)
  {
    PickIff(pods, delta, y);
    PickedAreHighest(pods, delta);
  }

  // Standard mode (and the common copy) writes the plan as the whole reserve
  // list. That keeps the same pods if and only if nothing was reserved below a
  // pod that stays.
  lemma {:induction false} FreshReserveIff(pods: seq<Node>, reserve: seq<int>, replicas: nat, delta: nat)
    requires Ordered(pods) && replicas + delta == |pods| && Elems(Ordinal(pods)) == Live(|pods|, reserve)
    requires |Masters(pods)| <= replicas && !Tangled(pods, delta)
    ensures Live(replicas, Plan(pods, delta)) == Kept(pods, delta)
       <==> forall x, y :: x in reserve && 0 <= x && Stays(pods, delta, y) ==> y < x
  {
    var plan, kept := Plan(pods, delta), Kept(pods, delta);
    assert Live(replicas, plan) == kept <==> IsLive(kept, replicas, Elems(plan)) by {
      LiveCharacterised(kept, replicas, plan);
    }
    assert IsLive(kept, replicas, Elems(reserve) + Elems(plan)) by {
      PlanIff(pods, reserve, replicas, delta);
      LiveIs(replicas, reserve + plan);
      ElemsConcat(reserve, plan);
    }
    assert Elems(plan) !! Elems(reserve) by {
      PlanAvoidsReserve(pods, reserve, delta);
    }
    FreshSets(kept, Elems(plan), reserve, replicas);
    forall y
      ensures y in kept <==> Stays(pods, delta, y)
    {
      KeptIff(pods, delta, y);
    }
  }

  lemma {:induction false} PlanAvoidsReserve(pods: seq<Node>, reserve: seq<int>, delta: int)
    requires Ordered(pods) && delta >= 0 && Elems(Ordinal(pods)) == Live(|pods|, reserve)
    ensures Elems(Plan(pods, delta)) !! Elems(reserve)
  {
    LiveIs(|pods|, reserve);
    PickedAreHighest(pods, delta);
    PlanIsUpTo(pods, delta);
  }

  lemma {:induction false} FreshSets(kept: set<int>, plan: set<int>, reserve: seq<int>, replicas: nat)
    requires IsLive(kept, replicas, Elems(reserve) + plan) && plan !! Elems(reserve)
    ensures IsLive(kept, replicas, plan) <==> forall x, y :: x in reserve && 0 <= x && y in kept ==> y < x
  {
    if IsLive(kept, replicas, plan) {
      forall x, y | x in reserve && 0 <= x && y in kept
        ensures y < x
      {
        assert x in Elems(reserve) && x !in plan;
        assert x !in kept;
      }
    }
  }

  // ----- emptying the node list by ordinal -----

  // The call returns (no index out of range) exactly when the highest slave's
  // ordinal is a valid position.
  lemma {:induction false} ReturnsIff(pods: seq<Node>, delta: int)
    requires Ordered(pods) && delta > 0
    ensures InRange(Picked(pods, delta), |pods|) <==> TopSlave(pods) < |pods|
  {
    PickedAreHighest(pods, delta);
    TopSlaveIsFirstPick(pods, delta);
    var picked := Picked(pods, delta);
    assert forall k :: 0 <= k < |picked| ==> picked[k] in Elems(picked);
  }

  // The highest pick sits at its own position, so there is no gap below it.
  predicate Aligned(pods: seq<Node>, delta: int)
    requires delta >= 0
  {
    var picked := Picked(pods, delta);
    picked != [] ==> 0 <= picked[0] < |pods| && pods[picked[0]].podIndex == picked[0]
  }

  lemma {:induction false} NoGapBelow(pods: seq<Node>, h: nat, k: nat)
    requires Ordered(pods) && k <= h < |pods| && pods[h].podIndex == h
    ensures pods[k].podIndex == k
    decreases h - k
  {
    var o := Ordinal(pods);
    OrdinalAtLeastPosition(o, k);
    if k < h {
      NoGapBelow(pods, h, k + 1);
      assert o[k] < o[k + 1];
    }
  }

  // Nothing is reserved at or below h.
  predicate NoneReservedUpTo(reserve: seq<int>, h: int) {
    forall x :: x in reserve && 0 <= x ==> h < x
  }

  // A pod of a sorted shard sits at the position of its own ordinal exactly when
  // nothing is reserved at or below it.
  lemma {:induction false} AlignedAt(pods: seq<Node>, reserve: seq<int>, p: nat)
    requires Ordered(pods) && p < |pods| && Elems(Ordinal(pods)) == Live(|pods|, reserve)
    ensures pods[p].podIndex == p <==> NoneReservedUpTo(reserve, pods[p].podIndex)
  {
    var o := Ordinal(pods);
    LiveIs(|pods|, reserve);
    assert o[p] in Live(|pods|, reserve);
    if o[p] == p {
      forall x | 0 <= x <= p
        ensures x !in Elems(reserve)
      {
        NoGapBelow(pods, p, x);
        assert o[x] in Live(|pods|, reserve);
      }
      assert forall x :: x in reserve ==> x in Elems(reserve);
    }
    if NoneReservedUpTo(reserve, o[p]) {
      forall x | 0 <= x < o[p]
        ensures x in o
      {
        assert x !in Elems(reserve);
        assert x in Live(|pods|, reserve);
      }
      NoGaps(o, p, p);
    }
  }

  lemma {:induction false} AlignedIff(pods: seq<Node>, reserve: seq<int>, delta: int)
    requires Ordered(pods) && delta > 0 && Elems(Ordinal(pods)) == Live(|pods|, reserve)
    ensures Aligned(pods, delta) <==> NoneReservedUpTo(reserve, TopSlave(pods))
  {
    TopSlaveIsFirstPick(pods, delta);
    var picked, h, o := Picked(pods, delta), TopSlave(pods), Ordinal(pods);
    if picked != [] {
      PickedAreHighest(pods, delta);
      assert h in Elems(picked);
      assert h in Elems(o);
      var p :| 0 <= p < |o| && o[p] == h;
      AlignedAt(pods, reserve, p);
      assert h < |o| && o[h] == h ==> h == p;
    }
  }

  // Setting position = ordinal to nil hits exactly the picked pods if and only if
  // nothing is reserved at or below the highest slave.
  lemma {:induction false} NilsItsOwnIff(pods: seq<Node>, reserve: seq<int>, delta: int)
    requires Ordered(pods) && delta > 0 && TopSlave(pods) < |pods| && Elems(Ordinal(pods)) == Live(|pods|, reserve)
    ensures (forall j :: 0 <= j < |pods| ==> (j in Picked(pods, delta) <==> pods[j].podIndex in Picked(pods, delta)))
       <==> NoneReservedUpTo(reserve, TopSlave(pods))
  {
    ReturnsIff(pods, delta);
    NilsAligned(pods, delta);
    AlignedIff(pods, reserve, delta);
  }

  lemma {:induction false} NilsAligned(pods: seq<Node>, delta: int)
    requires Ordered(pods) && delta > 0 && InRange(Picked(pods, delta), |pods|)
    ensures (forall j :: 0 <= j < |pods| ==> (j in Picked(pods, delta) <==> pods[j].podIndex in Picked(pods, delta)))
       <==> Aligned(pods, delta)
  {
    var picked := Picked(pods, delta);
    PickedAreHighest(pods, delta);
    if picked != [] {
      var h := picked[0];
      assert forall x :: x in picked ==> x <= h;
      OrdinalAtLeastPosition(Ordinal(pods), h);
      if Aligned(pods, delta) {
        forall j | 0 <= j < |pods|
          ensures j in picked <==> pods[j].podIndex in picked
        {
          if j <= h {
            NoGapBelow(pods, h, j);
          } else {
            assert Ordinal(pods)[h] < Ordinal(pods)[j];
          }
        }
      } else {
        assert h in picked;
      }
    }
  }

  // A shard left with gaps by an earlier shrink: ordinals 0, 2 and 3 with ordinal
  // 1 reserved and the master at 3. Shrinking to two replicas rightly picks pod 2
  // but sets position 2 to nil, which is the master's record.
  lemma {:induction false} GapDropsMaster(n0: Node, n2: Node, n3: Node)
    requires n0.podIndex == 0 && n2.podIndex == 2 && n3.podIndex == 3
    requires n0.role == SLAVE && n2.role == SLAVE && n3.role == MASTER
    ensures var pods := [n0, n2, n3];
            && Ordinal(pods) == LivePods(3, [1])
            && Picked(pods, 1) == [2] && InRange(Picked(pods, 1), 3)
            && NilAll(Present(pods), Picked(pods, 1)) == [Some(n0), Some(n2), None]
            && Live(2, [1] + Plan(pods, 1)) == {0, 3}
  {
    GapPlan(n0, n2, n3);
    GapPods();
    assert Ordinal([n0, n2, n3]) == [0, 2, 3];
  }

  lemma {:induction false} GapPlan(n0: Node, n2: Node, n3: Node)
    requires n2.podIndex == 2 && n3.podIndex == 3
    requires n0.role == SLAVE && n2.role == SLAVE && n3.role == MASTER
    ensures Picked([n0, n2, n3], 1) == [2] && Plan([n0, n2, n3], 1) == [2]
  {
    var pods := [n0, n2, n3];
    assert pods[..2] == [n0, n2];
    assert pods[..2][..1] == [n0];
    assert Picked([n0, n2], 1) == [2];
    assert ScanMaster(pods, 1, 0) == ScanMaster([n0, n2], 1, 3) == ScanMaster([n0], 0, 3) == 3;
    assert KeepUpTo([2], 3) == KeepUpTo([], 3) + [2];
  }

  lemma {:induction false} GapPods()
    ensures LivePods(3, [1]) == [0, 2, 3] && Live(2, [1] + [2]) == {0, 3}
  {
    assert Elems([1]) == {1} && Elems([1] + [2]) == {1, 2};
    assert {1} - {1} == {} && {1, 2} - {1} == {2} && {2} - {2} == {};
    assert LiveFrom(1, 2, {1}) == LiveFrom(2, 2, {});
    assert LiveFrom(2, 2, {}) == [2] + LiveFrom(3, 1, {}) == [2, 3];
    assert LiveFrom(0, 3, {1}) == [0, 2, 3];
    assert LiveFrom(1, 1, {1, 2}) == LiveFrom(2, 1, {2}) == LiveFrom(3, 1, {}) == [3];
    assert LiveFrom(0, 2, {1, 2}) == [0, 3];
    assert LivePods(2, [1] + [2]) == [0, 3];
  }

  // Ordinals 0 and 3 with 1 and 2 reserved: shrinking to one replica picks pod 3,
  // and there is no position 3.
  lemma {:induction false} GapPanics(n0: Node, n3: Node)
    requires n0.podIndex == 0 && n3.podIndex == 3 && n0.role == MASTER && n3.role == SLAVE
    ensures Ordinal([n0, n3]) == LivePods(2, [1, 2])
    ensures Picked([n0, n3], 1) == [3] && !InRange(Picked([n0, n3], 1), 2)
  {
    var pods := [n0, n3];
    assert pods[..1] == [n0];
    assert Picked(pods, 1) == [3] + Picked([n0], 0) == [3];
    assert Elems([1, 2]) == {1, 2} && {1, 2} - {1} == {2} && {2} - {2} == {};
    assert LiveFrom(1, 1, {1, 2}) == LiveFrom(2, 1, {2}) == LiveFrom(3, 1, {}) == [3];
    assert LiveFrom(0, 2, {1, 2}) == [0] + LiveFrom(1, 1, {1, 2});
  }

  // Slave, master, slave, master: shrinking to two replicas picks both slaves but
  // reserves only the lower one, so the lower slave's place is taken by the other
  // slave and the upper master goes.
  lemma {:induction false} TangledDropsMaster(n0: Node, n1: Node, n2: Node, n3: Node)
    requires n0.podIndex == 0 && n1.podIndex == 1 && n2.podIndex == 2 && n3.podIndex == 3
    requires n0.role == n2.role == SLAVE && n1.role == n3.role == MASTER
    ensures var pods := [n0, n1, n2, n3];
            Picked(pods, 2) == [2, 0] && Plan(pods, 2) == [0] && Live(2, Plan(pods, 2)) == {1, 2}
  {
    var pods := [n0, n1, n2, n3];
    assert pods[..3] == [n0, n1, n2] && pods[..3][..2] == [n0, n1] && [n0, n1][..1] == [n0] && [n0][..0] == [];
    assert [n0, n1, n2][..2] == [n0, n1];
    assert Picked([n0], 1) == [0] + Picked([], 0) == [0];
    assert Picked([n0, n1], 1) == [0];
    assert Picked([n0, n1, n2], 2) == [2, 0];
    assert ScanMaster([n0], 1, 1) == ScanMaster([], 0, 1) == 1;
    assert ScanMaster([n0, n1], 1, 3) == 1;
    assert ScanMaster(pods, 2, 0) == ScanMaster([n0, n1, n2], 2, 3) == 1;
    assert [2, 0][1..] == [0] && [0][1..] == [];
    assert KeepUpTo([0], 1) == KeepUpTo([], 1) + [0] == [0];
    assert KeepUpTo([2, 0], 1) == [0];
    assert Elems([0]) == {0} && {0} - {0} == {};
    assert LiveFrom(0, 2, {0}) == LiveFrom(1, 2, {}) == [1] + LiveFrom(2, 1, {}) == [1, 2];
    assert LivePods(2, [0]) == [1, 2];
  }

  // Ordinals 0, 2 and 3 with 1 reserved and the master at 3: in standard mode,
  // shrinking to two replicas forgets that 1 was reserved and evicts the master.
  lemma {:induction false} FreshDropsMaster(n0: Node, n2: Node, n3: Node)
    requires n0.podIndex == 0 && n2.podIndex == 2 && n3.podIndex == 3
    requires n0.role == SLAVE && n2.role == SLAVE && n3.role == MASTER
    ensures Plan([n0, n2, n3], 1) == [2] && Live(2, [2]) == {0, 1}
  {
    GapPlan(n0, n2, n3);
    FreshPods();
  }

  lemma {:induction false} FreshPods()
    ensures Live(2, [2]) == {0, 1}
  {
    assert Elems([2]) == {2};
    assert LiveFrom(0, 2, {2}) == [0] + LiveFrom(1, 1, {2}) == [0, 1];
    assert LivePods(2, [2]) == [0, 1];
  }
}
