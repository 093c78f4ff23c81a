// Scaling a shard down: which pods go and which ordinals must be reserved so that
// the StatefulSet keeps exactly the others. The operator holds three copies of
// this planner.
module ShrinkPlanner {
  import opened Text
  import opened Topology

  // ----- what the planners compute -----

  // Ordinals picked by the downward scan, in scan order: the highest non-masters,
  // `delta` of them or all there are.
  function Picked(pods: seq<Node>, delta: int): (r: seq<int>)
    requires delta >= 0
    ensures |r| <= delta
  {
    if delta == 0 || pods == [] then []
    else
      var n := |pods| - 1;
      if pods[n].role != MASTER then [pods[n].podIndex] + Picked(pods[..n], delta - 1)
      else Picked(pods[..n], delta)
  }

  // The variable masterID after the scan: the last master passed before the last
  // pick, `seen` when none was.
  function ScanMaster(pods: seq<Node>, delta: int, seen: int): (m: int)
    requires delta >= 0
  {
    if delta == 0 || pods == [] then seen
    else
      var n := |pods| - 1;
      if pods[n].role != MASTER then ScanMaster(pods[..n], delta - 1, seen)
      else ScanMaster(pods[..n], delta, pods[n].podIndex)
  }

  // The second loop walks the picks upwards and keeps those not above the master.
  function KeepUpTo(picked: seq<int>, m: int): (r: seq<int>)
    ensures forall x :: x in r <==> x in picked && x <= m
  {
    if picked == [] then []
    else
      assert forall x :: x in picked <==> x == picked[0] || x in picked[1..];
      KeepUpTo(picked[1..], m) + if picked[0] > m then [] else [picked[0]]
  }

  // The same loop when it stops at the first pick above the master.
  function StopAbove(picked: seq<int>, m: int): (r: seq<int>) {
    if picked == [] || picked[|picked| - 1] > m then []
    else [picked[|picked| - 1]] + StopAbove(picked[..|picked| - 1], m)
  }

  function Plan(pods: seq<Node>, delta: int): (r: seq<int>)
    requires delta >= 0
  {
    KeepUpTo(Picked(pods, delta), ScanMaster(pods, delta, 0))
  }

  // ----- the scan, shared by the three copies -----

  method Scan(pods: seq<Node>, want: int) returns (reserve: seq<int>, masterID: int)
    requires want > 0
    ensures reserve == Picked(pods, want) && masterID == ScanMaster(pods, want, 0)
  {
    reserve, masterID := [], 0;
    var delta := want;
    var j := |pods| - 1;
    assert pods[..|pods|] == pods;
    while j >= 0
      invariant -1 <= j < |pods| && delta > 0
      invariant Scanned(pods, want, j + 1, delta, reserve, masterID)
    {
      ScanStep(pods, want, j, delta, reserve, masterID);
      if delta > 0 {
        if pods[j].role != MASTER {
          reserve := reserve + [pods[j].podIndex];
          delta := delta - 1;
        } else {
          masterID := pods[j].podIndex;
        }
      }
      if delta == 0 {
        break;
      }
      j := j - 1;
    }
  }

  // The first n pods are still to be scanned, for `delta` more picks.
  ghost predicate Scanned(pods: seq<Node>, want: int, n: nat, delta: int, reserve: seq<int>, m: int)
    requires n <= |pods| && want >= 0 && delta >= 0
  {
    && reserve + Picked(pods[..n], delta) == Picked(pods, want)
    && ScanMaster(pods[..n], delta, m) == ScanMaster(pods, want, 0)
  }

  lemma {:induction false} ScanStep(pods: seq<Node>, want: int, n: nat, delta: int, reserve: seq<int>, m: int)
    requires n < |pods| && want >= 0 && delta > 0 && Scanned(pods, want, n + 1, delta, reserve, m)
    ensures if pods[n].role != MASTER then Scanned(pods, want, n, delta - 1, reserve + [pods[n].podIndex], m)
            else Scanned(pods, want, n, delta, reserve, pods[n].podIndex)
  {
    assert pods[..n + 1][..n] == pods[..n];
    if pods[n].role != MASTER {
      var x, rest := pods[n].podIndex, Picked(pods[..n], delta - 1);
      assert Picked(pods[..n + 1], delta) == [x] + rest;
      assert reserve + ([x] + rest) == reserve + [x] + rest;
    }
  }

  // Position `id` of the node list is set to nil for every pick; the code uses
  // the pod ordinal as that position.
  function NilAll(nodes: seq<Option<Node>>, ids: seq<int>): (r: seq<Option<Node>>)
    ensures |r| == |nodes|
    ensures forall j :: 0 <= j < |r| ==> r[j] == if j in ids then None else nodes[j]
  {
    seq(|nodes|, j requires 0 <= j < |nodes| => if j in ids then None else nodes[j])
  }

  predicate InRange(ids: seq<int>, n: int) {
    forall k :: 0 <= k < |ids| ==> 0 <= ids[k] < n
  }

  // What a call leaves behind: the result (None is Go's nil list), or a panic
  // because an ordinal was used as a list index out of range.
  datatype Outcome = Returned(reserve: Option<seq<int>>) | IndexOutOfRange

  // The second loop of the cluster and common copies: each pick's position is set
  // to nil, and picks not above the master are reserved.
  method NilAndReserve(nodes: array<Option<Node>>, picked: seq<int>, masterID: int) returns (r: Outcome)
    modifies nodes
    ensures InRange(picked, nodes.Length) ==>
      r == Returned(Some(KeepUpTo(picked, masterID))) && nodes[..] == NilAll(old(nodes[..]), picked)
    ensures !InRange(picked, nodes.Length) ==> r == IndexOutOfRange
  {
    var result: seq<int> := [];
    var j := |picked| - 1;
    while j >= 0
      invariant -1 <= j < |picked|
      invariant InRange(picked[j + 1..], nodes.Length)
      invariant forall k :: 0 <= k < nodes.Length ==>
        nodes[k] == if k in picked[j + 1..] then None else old(nodes[k])
      invariant result == KeepUpTo(picked[j + 1..], masterID)
    {
      var id := picked[j];
      assert picked[j..] == [id] + picked[j + 1..];
      if !(0 <= id < nodes.Length) {
        return IndexOutOfRange;
      }
      nodes[id] := None;
      if !(id > masterID) {
        result := result + [id];
      }
      j := j - 1;
    }
    assert picked[0..] == picked;
    return Returned(Some(result));
  }

  // What the cluster and common planners do to a list with no nil in it.
  ghost predicate Planned(before: seq<Option<Node>>, after: seq<Option<Node>>, replicas: int, r: Outcome) {
    var delta := |before| - replicas;
    if delta <= 0 then r == Returned(None) && after == before
    else
      var pods := Compact(before);
      var picked := Picked(pods, delta);
      if InRange(picked, |before|)
      then r == Returned(Some(Plan(pods, delta))) && after == NilAll(before, picked)
      else r == IndexOutOfRange
  }

  // cluster.getReserveIndex. `nodes` is the shard's list, changed in place.
  method GetReserveIndex(nodes: array<Option<Node>>, replicas: int) returns (r: Outcome)
    requires forall j :: 0 <= j < nodes.Length ==> nodes[j].Some?
    modifies nodes
    ensures Planned(old(nodes[..]), nodes[..], replicas, r)
  {
    var delta := nodes.Length - replicas;
    if delta > 0 {
      r := PlanSurplus(nodes, delta);
    } else {
      r := Returned(None);
    }
  }

  // The scan and the second loop, for a surplus of `delta` pods.
  method PlanSurplus(nodes: array<Option<Node>>, delta: int) returns (r: Outcome)
    requires delta > 0 && forall j :: 0 <= j < nodes.Length ==> nodes[j].Some?
    modifies nodes
    ensures var before := old(nodes[..]);
      var picked := Picked(Compact(before), delta);
      if InRange(picked, |before|)
      then r == Returned(Some(Plan(Compact(before), delta))) && nodes[..] == NilAll(before, picked)
      else r == IndexOutOfRange
  {
    var pods := Nodes(nodes[..]);
    CompactPresent(pods);
    var reserve, masterID := Scan(pods, delta);
    r := NilAndReserve(nodes, reserve, masterID);
  }

  function Nodes(list: seq<Option<Node>>): (r: seq<Node>)
    requires forall j :: 0 <= j < |list| ==> list[j].Some?
    ensures list == Present(r)
  {
    seq(|list|, j requires 0 <= j < |list| => list[j].value)
  }

  // common.ResizeStatefulSet: the reserve list it gives the StatefulSet.
  method ResizeStatefulSet(nodes: array<Option<Node>>, replicas: int) returns (r: Outcome)
    requires forall j :: 0 <= j < nodes.Length ==> nodes[j].Some?
    modifies nodes
    ensures Planned(old(nodes[..]), nodes[..], replicas, r)
  {
    var delta := nodes.Length - replicas;
    if delta == 0 {
      return Returned(None);
    }
    r := Returned(None);
    if delta > 0 {
      r := PlanSurplus(nodes, delta);
    }
  }

  // standard.resizeStatefulSet, its reserve list; it stops at the first ordinal
  // above the master and leaves the node list alone.
  method ResizeStandard(pods: seq<Node>, replicas: int) returns (reserved: seq<int>)
    ensures reserved == if |pods| > replicas
                        then StopAbove(Picked(pods, |pods| - replicas), ScanMaster(pods, |pods| - replicas, 0))
                        else []
  {
    reserved := [];
    var delta := |pods| - replicas;
    if delta > 0 {
      var reserve, masterID := Scan(pods, delta);
      var i := |reserve| - 1;
      assert reserve[..i + 1] == reserve;
      while i >= 0
        invariant -1 <= i < |reserve|
        invariant reserved + StopAbove(reserve[..i + 1], masterID) == StopAbove(reserve, masterID)
      {
        var id := reserve[i];
        assert reserve[..i + 1][..i] == reserve[..i];
        if id > masterID {
          break;
        }
        reserved := reserved + [id];
        i := i - 1;
      }
    }
  }
}
