// ensureFailover over all shards, and which pods it deletes: it names a pod by the
// position of its node in the list, not by its ordinal.
module FailoverPods {
  import opened Text
  import opened Counting
  import opened Ordinals
  import opened Topology
  import opened ShrinkCorrect
  import opened FailoverMerge
  import opened StatusProtocol

  predicate AnySilent(sts: seq<seq<Node>>, silent: set<string>) {
    exists i :: 0 <= i < |sts| && Silent(sts[i], silent)
  }

  // What one complete pass reports and deletes, shard by shard.
  ghost predicate Handled(instance: string, sts: seq<seq<Node>>, silent: set<string>,
                          sent: seq<set<string>>, gone: seq<set<string>>)
  {
    && |sent| == |gone| == |sts|
    && forall i :: 0 <= i < |sts| ==>
         sent[i] == Reported(sts[i], silent) && gone[i] == Deleted(instance, i, sts[i], silent)
  }

  // ensureFailover up to its save. A pass that completes clears every flag; one
  // that fails in shard i has done shards 0..i-1 completely.
  method EnsureFailover(instance: string, sts: seq<seq<Node>>, silent: set<string>)
    returns (ok: bool, nodes: seq<seq<Node>>, requeue: bool, change: bool, sent: seq<set<string>>,
             gone: seq<set<string>>)
    ensures ok ==> nodes == UnflagAll(sts) && change == AnyFlag(sts)
    ensures ok ==> requeue == (AnyFlag(sts) || AnySilent(sts, silent))
    ensures ok ==> Handled(instance, sts, silent, sent, gone)
    ensures !ok ==> requeue && |sent| == |gone| < |sts| && Handled(instance, sts[..|sent|], silent, sent, gone)
  {
    nodes, requeue, change, sent, gone := [], false, false, [], [];
    for i := 0 to |sts|
      invariant |sent| == i && PassedShards(instance, sts[..i], silent, nodes, requeue, change, sent, gone)
    {
      var done, p, claims, at := FailoverShard(instance, i, sts[i], silent);
      if !done {
        return false, nodes, true, change || p.change, sent, gone;
      }
      PassedAll(instance, i, sts[i], silent);
      NextShard(instance, sts, silent, i, nodes, requeue, change, sent, gone);
      nodes, sent, gone := nodes + [p.nodes], sent + [p.sent], gone + [p.gone];
      requeue, change := requeue || p.requeue, change || p.change;
    }
    assert sts[..|sts|] == sts;
    ok := true;
  }

  lemma {:induction false} PassedAll(instance: string, shard: int, list: seq<Node>, silent: set<string>)
    ensures PassTo(instance, shard, list, silent, |list|)
         == Pass(Unflag(list), Flagged(list) || Silent(list, silent), Flagged(list), Reported(list, silent),
                 Deleted(instance, shard, list, silent))
  {
    PassIs(instance, shard, list, silent, |list|);
    assert list[..|list|] == list && list[|list|..] == [];
  }

  // What a complete pass does about node j: its flag is cleared and nothing else; when
  // it does not answer, an unflagged node is reported and for a flagged one the pod
  // named after its position is deleted. Only addresses that do not answer are
  // reported.
  lemma {:induction false} NodeIsHandled(instance: string, shard: int, list: seq<Node>, silent: set<string>, j: nat)
    requires j < |list|
    ensures var p := PassTo(instance, shard, list, silent, |list|);
            && p.nodes[j] == list[j].(failover := false) && p.sent <= silent
            && (list[j].ip in silent ==> p.requeue) && (list[j].failover ==> p.requeue && p.change)
            && (!list[j].failover && list[j].ip in silent ==> list[j].ip in p.sent)
            && (list[j].failover && list[j].ip in silent ==>
                  instance + "-" + Itoa(shard) + "-" + Itoa(j) in p.gone)
  {
    PassedAll(instance, shard, list, silent);
    assert Down(list, silent, j) ==> PodName(instance, shard, j) in Deleted(instance, shard, list, silent);
  }

  // All of these shards were dealt with.
  ghost predicate PassedShards(instance: string, sts: seq<seq<Node>>, silent: set<string>, nodes: seq<seq<Node>>,
                               requeue: bool, change: bool, sent: seq<set<string>>, gone: seq<set<string>>)
  {
    && nodes == UnflagAll(sts) && change == AnyFlag(sts) && requeue == (change || AnySilent(sts, silent))
    && Handled(instance, sts, silent, sent, gone)
  }

  lemma {:induction false} NextShard(instance: string, sts: seq<seq<Node>>, silent: set<string>, i: nat,
                                     nodes: seq<seq<Node>>, requeue: bool, change: bool,
                                     sent: seq<set<string>>, gone: seq<set<string>>)
    requires i < |sts| && PassedShards(instance, sts[..i], silent, nodes, requeue, change, sent, gone)
    ensures var x := sts[i];
            PassedShards(instance, sts[..i + 1], silent, nodes + [Unflag(x)],
                         requeue || Flagged(x) || Silent(x, silent), change || Flagged(x),
                         sent + [Reported(x, silent)], gone + [Deleted(instance, i, x, silent)])
  {
    OneMoreShard(sts, silent, i);
    HandledNext(instance, sts, silent, sent, gone, i);
  }

  lemma {:induction false} OneMoreShard(sts: seq<seq<Node>>, silent: set<string>, i: nat)
    requires i < |sts|
    ensures UnflagAll(sts[..i + 1]) == UnflagAll(sts[..i]) + [Unflag(sts[i])]
    ensures AnyFlag(sts[..i + 1]) == (AnyFlag(sts[..i]) || Flagged(sts[i]))
    ensures AnySilent(sts[..i + 1], silent) == (AnySilent(sts[..i], silent) || Silent(sts[i], silent))
  {
    var a, b := sts[..i], sts[..i + 1];
    assert b[i] == sts[i];
    assert forall k :: 0 <= k < i ==> a[k] == b[k];
  }

  lemma {:induction false} HandledNext(instance: string, sts: seq<seq<Node>>, silent: set<string>,
                                       sent: seq<set<string>>, gone: seq<set<string>>, i: nat)
    requires i < |sts| && Handled(instance, sts[..i], silent, sent, gone)
    ensures Handled(instance, sts[..i + 1], silent, sent + [Reported(sts[i], silent)],
                    gone + [Deleted(instance, i, sts[i], silent)])
  {
    assert forall k :: 0 <= k < i ==> sts[..i][k] == sts[..i + 1][k];
  }

  // ----- whose pods are deleted -----

  // The pods of the flagged nodes that do not answer.
  function OwnPods(instance: string, shard: int, nodes: seq<Node>, silent: set<string>): (r: set<string>) {
    set j | 0 <= j < |nodes| && nodes[j].failover && nodes[j].ip in silent ::
      PodName(instance, shard, nodes[j].podIndex)
  }

  predicate Down(nodes: seq<Node>, silent: set<string>, j: int) {
    0 <= j < |nodes| && nodes[j].failover && nodes[j].ip in silent
  }

  // The position of the last flagged node that does not answer, -1 when there is none.
  function LastDown(nodes: seq<Node>, silent: set<string>): (p: int)
    ensures -1 <= p < |nodes| && (p >= 0 ==> Down(nodes, silent, p))
    ensures forall j :: Down(nodes, silent, j) ==> j <= p
  {
    if nodes == [] then -1
    else
      var n := |nodes| - 1;
      if Down(nodes, silent, n) then n
      else
        assert forall j :: Down(nodes, silent, j) <==> Down(nodes[..n], silent, j);
        LastDown(nodes[..n], silent)
  }

  lemma {:induction false} PodNameInjective(instance: string, shard: int, i: int, j: int)
    ensures PodName(instance, shard, i) == PodName(instance, shard, j) <==> i == j
  {
    var p := StatefulSetName(instance, shard) + "-";
    assert PodName(instance, shard, i)[|p|..] == Itoa(i);
    assert PodName(instance, shard, j)[|p|..] == Itoa(j);
    if PodName(instance, shard, i) == PodName(instance, shard, j) {
      ItoaInjective(i, j);
    }
  }

  // A node that is down and sits at a position below its ordinal.
  predicate Misplaced(nodes: seq<Node>, silent: set<string>, j: int) {
    Down(nodes, silent, j) && nodes[j].podIndex != j
  }

  lemma {:induction false} FirstMisplaced(nodes: seq<Node>, silent: set<string>, j: int) returns (f: int)
    requires Misplaced(nodes, silent, j)
    ensures Misplaced(nodes, silent, f) && forall i :: i < f ==> !Misplaced(nodes, silent, i)
    decreases j
  {
    f := j;
    if i :| i < j && Misplaced(nodes, silent, i) {
      f := FirstMisplaced(nodes, silent, i);
    }
  }

  lemma {:induction false} AtLeastPosition(nodes: seq<Node>, j: nat)
    requires Ordered(nodes) && j < |nodes|
    ensures nodes[j].podIndex >= j
  {
    OrdinalAtLeastPosition(Ordinal(nodes), j);
  }

  // The name deleted for the first misplaced node is not the pod of a node that is down.
  lemma {:induction false} StrangerDeleted(instance: string, shard: int, nodes: seq<Node>, silent: set<string>, f: nat)
    requires Ordered(nodes) && Misplaced(nodes, silent, f) && forall i :: i < f ==> !Misplaced(nodes, silent, i)
    ensures PodName(instance, shard, f) in Deleted(instance, shard, nodes, silent)
    ensures PodName(instance, shard, f) !in OwnPods(instance, shard, nodes, silent)
  {
    AtLeastPosition(nodes, f);
    forall i | Down(nodes, silent, i)
      ensures PodName(instance, shard, nodes[i].podIndex) != PodName(instance, shard, f)
    {
      PodNameInjective(instance, shard, nodes[i].podIndex, f);
      assert i < f ==> !Misplaced(nodes, silent, i);
      assert i > f ==> Ordinal(nodes)[f] < Ordinal(nodes)[i];
    }
  }

  lemma {:induction false} AllPlaced(instance: string, shard: int, nodes: seq<Node>, silent: set<string>)
    requires forall j :: !Misplaced(nodes, silent, j)
    ensures Deleted(instance, shard, nodes, silent) == OwnPods(instance, shard, nodes, silent)
  {
    var own := OwnPods(instance, shard, nodes, silent);
    forall j | Down(nodes, silent, j)
      ensures nodes[j].podIndex == j
    {
      assert !Misplaced(nodes, silent, j);
    }
  }

  lemma {:induction false} PlacedIff(nodes: seq<Node>, silent: set<string>)
    requires Ordered(nodes)
    ensures (forall j :: !Misplaced(nodes, silent, j))
       <==> var p := LastDown(nodes, silent); p == -1 || nodes[p].podIndex == p
  {
    var p := LastDown(nodes, silent);
    if p >= 0 {
      if nodes[p].podIndex == p {
        forall j | Down(nodes, silent, j)
          ensures nodes[j].podIndex == j
        {
          NoGapBelow(nodes, p, j);
        }
      } else {
        assert Misplaced(nodes, silent, p);
      }
    }
  }

  // In a sorted shard only pods of flagged, silent nodes are deleted, and then all
  // of them, if and only if nothing is reserved at or below the ordinal of the last
  // such node. Otherwise a pod that should stay is deleted, and the last such node
  // keeps its pod.
  lemma {:induction false} DeletesOwnPodsIff(instance: string, shard: int, nodes: seq<Node>, reserve: seq<int>,
                                             silent: set<string>)
    requires Ordered(nodes) && Elems(Ordinal(nodes)) == Live(|nodes|, reserve)
    ensures var p := LastDown(nodes, silent);
            var deleted, own := Deleted(instance, shard, nodes, silent), OwnPods(instance, shard, nodes, silent);
            var fine := p == -1 || NoneReservedUpTo(reserve, nodes[p].podIndex);
            && (deleted <= own <==> fine)
            && (deleted == own <==> fine)
            && (!fine ==> PodName(instance, shard, nodes[p].podIndex) !in deleted)
  {
    var p := LastDown(nodes, silent);
    PlacedIff(nodes, silent);
    if p >= 0 {
      AlignedAt(nodes, reserve, p);
    }
    if forall j :: !Misplaced(nodes, silent, j) {
      AllPlaced(instance, shard, nodes, silent);
    } else {
      var f := FirstMisplaced(nodes, silent, p);
      StrangerDeleted(instance, shard, nodes, silent, f);
      OwnPodStays(instance, shard, nodes, silent);
    }
  }

  lemma {:induction false} OwnPodStays(instance: string, shard: int, nodes: seq<Node>, silent: set<string>)
    requires Ordered(nodes) && LastDown(nodes, silent) >= 0 && Misplaced(nodes, silent, LastDown(nodes, silent))
    ensures var p := LastDown(nodes, silent);
            PodName(instance, shard, nodes[p].podIndex) !in Deleted(instance, shard, nodes, silent)
  {
    var p := LastDown(nodes, silent);
    AtLeastPosition(nodes, p);
    forall j | Down(nodes, silent, j)
      ensures PodName(instance, shard, j) != PodName(instance, shard, nodes[p].podIndex)
    {
      PodNameInjective(instance, shard, j, nodes[p].podIndex);
    }
  }

  // Ordinals 0, 2 and 3; node 3 is flagged and silent, node 2 answers. The pod of
  // node 2 is deleted and that of node 3 stays.
  lemma {:induction false} HealthyPodDeleted(instance: string, shard: int, n0: Node, n2: Node, n3: Node,
                                             silent: set<string>)
    requires n0.podIndex == 0 && n2.podIndex == 2 && n3.podIndex == 3
    requires !n0.failover && !n2.failover && n3.failover && n2.ip !in silent && n3.ip in silent
    ensures Deleted(instance, shard, [n0, n2, n3], silent) == {PodName(instance, shard, n2.podIndex)}
    ensures PodName(instance, shard, n3.podIndex) !in Deleted(instance, shard, [n0, n2, n3], silent)
  {
    var nodes := [n0, n2, n3];
    assert nodes[2] == n3;
    PodNameInjective(instance, shard, 2, 3);
  }
}
