// What updateCluster, ensureSetNodeID and ensureMigrate achieve together: a shard
// table that matches the pods, node records that match the table, and the right
// source shard for a migration.
module Reconcile {
  import opened Text
  import opened Counting
  import opened SlotRanges
  import opened Topology
  import opened FailoverMerge
  import opened ShardTable

  // ----- updateCluster converges -----

  // As many shards as StatefulSets, and shard i has the addresses of StatefulSet i.
  ghost predicate Converged(shards: seq<Shard>, sts: seq<seq<Node>>) {
    |shards| == |sts| && forall i :: 0 <= i < |sts| ==> ShardIps(shards[i].nodes) == Ips(sts[i])
  }

  predicate ColonFree(nodes: seq<Node>) {
    forall k :: 0 <= k < |nodes| ==> ':' !in nodes[k].ip
  }

  ghost predicate AllColonFree(sts: seq<seq<Node>>) {
    forall i :: 0 <= i < |sts| ==> ColonFree(sts[i])
  }

  lemma {:induction false} ListedIps(nodes: seq<ShardNode>, ips: set<string>)
    ensures ShardIps(Listed(nodes, ips)) == ShardIps(nodes) * ips
  {
    if nodes != [] {
      var n := |nodes| - 1;
      ListedIps(nodes[..n], ips);
      ShardIpsSnoc(nodes[..n], nodes[n]);
      assert nodes == nodes[..n] + [nodes[n]];
      var rest := Listed(nodes[..n], ips);
      if SimplyIp(nodes[n].addr) in ips {
        ShardIpsSnoc(rest, nodes[n]);
        assert Listed(nodes, ips) == rest + [nodes[n]];
      } else {
        assert Listed(nodes, ips) == rest;
      }
    }
  }

  lemma {:induction false} ShardIpsSnoc(nodes: seq<ShardNode>, x: ShardNode)
    ensures ShardIps(nodes + [x]) == ShardIps(nodes) + {SimplyIp(x.addr)}
  {
    var all := nodes + [x];
    assert all[|nodes|] == x;
    assert forall k :: 0 <= k < |nodes| ==> all[k] == nodes[k];
  }

  lemma {:induction false} IpsSnoc(sts: seq<Node>, x: Node)
    ensures Ips(sts + [x]) == Ips(sts) + {x.ip}
  {
    var all := sts + [x];
    assert all[|sts|] == x;
    assert forall k :: 0 <= k < |sts| ==> all[k] == sts[k];
  }

  lemma {:induction false} MissingIps(sts: seq<Node>, have: set<string>)
    ensures Ips(Missing(sts, have)) == Ips(sts) - have
    ensures ColonFree(sts) ==> ColonFree(Missing(sts, have))
  {
    if sts != [] {
      var n := |sts| - 1;
      MissingIps(sts[..n], have);
      assert sts == sts[..n] + [sts[n]];
      IpsSnoc(sts[..n], sts[n]);
      var rest := Missing(sts[..n], have);
      if sts[n].ip !in have {
        IpsSnoc(rest, sts[n]);
        assert Missing(sts, have) == rest + [sts[n]];
      } else {
        assert Missing(sts, have) == rest;
      }
    }
  }

  lemma {:induction false} ExtendedIps(a: Shard, b: Shard, added: seq<Node>)
    requires Extended(a, b, added) && ColonFree(added)
    ensures ShardIps(b.nodes) == ShardIps(a.nodes) + Ips(added)
  {
    var n := |a.nodes|;
    forall k | 0 <= k < |added|
      ensures SimplyIp(b.nodes[n + k].addr) == added[k].ip
    {
      SimplyIpOfAddr(added[k].ip);
    }
    forall k | 0 <= k < |b.nodes|
      ensures SimplyIp(b.nodes[k].addr) in ShardIps(a.nodes) + Ips(added)
    {
      if k < n {
        assert b.nodes[k] == a.nodes[k];
      } else {
        assert SimplyIp(b.nodes[n + (k - n)].addr) == added[k - n].ip;
      }
    }
    forall k | 0 <= k < n
      ensures SimplyIp(a.nodes[k].addr) in ShardIps(b.nodes)
    {
      assert b.nodes[k] == a.nodes[k];
    }
  }

  lemma {:induction false} CreatedIps(s: Shard, sts: seq<Node>)
    requires Created(s, sts) && ColonFree(sts)
    ensures ShardIps(s.nodes) == Ips(sts)
  {
    forall k | 0 <= k < |sts|
      ensures SimplyIp(s.nodes[k].addr) == sts[k].ip
    {
      SimplyIpOfAddr(sts[k].ip);
    }
  }

  lemma {:induction false} FollowedShardIps(shards: seq<Shard>, after: seq<Shard>, sts: seq<seq<Node>>, i: nat)
    requires i < |sts| && i < |after| && FollowedShard(shards, after, sts, i) && ColonFree(sts[i])
    ensures ShardIps(after[i].nodes) == Ips(sts[i])
  {
    var base: Shard;
    if i < |shards| {
      base := shards[i].(nodes := Listed(shards[i].nodes, Ips(sts[i])));
      ListedIps(shards[i].nodes, Ips(sts[i]));
    } else {
      base :| Created(base, sts[i]) && Extended(base, after[i], Missing(sts[i], ShardIps(base.nodes)));
      CreatedIps(base, sts[i]);
    }
    MissingIps(sts[i], ShardIps(base.nodes));
    ExtendedIps(base, after[i], Missing(sts[i], ShardIps(base.nodes)));
  }

  // From any starting table: the table matches the pods afterwards if and only if
  // no pod address contains a colon.
  lemma {:induction false} ConvergesIff(shards: seq<Shard>, after: seq<Shard>, sts: seq<seq<Node>>)
    requires Followed(shards, after, sts)
    ensures Converged(after, sts) <==> AllColonFree(sts)
  {
    forall i | 0 <= i < |sts| && ColonFree(sts[i])
      ensures ShardIps(after[i].nodes) == Ips(sts[i])
    {
      FollowedShardIps(shards, after, sts, i);
    }
    if Converged(after, sts) {
      forall i, k | 0 <= i < |sts| && 0 <= k < |sts[i]|
        ensures ':' !in sts[i][k].ip
      {
        assert sts[i][k].ip in ShardIps(after[i].nodes);
      }
    }
  }

  // A node that has a pod keeps its record, its id included.
  lemma {:induction false} SharedNodesKeepIds(shards: seq<Shard>, after: seq<Shard>, sts: seq<seq<Node>>, i: nat,
                                              k: nat)
    requires Followed(shards, after, sts) && i < |sts| && i < |shards|
    requires k < |shards[i].nodes| && SimplyIp(shards[i].nodes[k].addr) in Ips(sts[i])
    ensures shards[i].nodes[k] in after[i].nodes
    ensures after[i].slotRanges == shards[i].slotRanges
  {
    assert FollowedShard(shards, after, sts, i);
    ListedMember(shards[i].nodes, Ips(sts[i]), k);
    var base := Listed(shards[i].nodes, Ips(sts[i]));
    var j :| 0 <= j < |base| && base[j] == shards[i].nodes[k];
    assert after[i].nodes[j] == base[j];
  }

  // A pod without a node gets one, at its address with the port of the server, and
  // in its role when the shard was there before.
  lemma {:induction false} NewPodIsListed(shards: seq<Shard>, after: seq<Shard>, sts: seq<seq<Node>>, i: nat, k: nat)
    returns (p: nat)
    requires Followed(shards, after, sts) && i < |sts| && k < |sts[i]|
    requires i < |shards| ==> sts[i][k].ip !in ShardIps(shards[i].nodes)
    ensures p < |after[i].nodes| && after[i].nodes[p].addr == sts[i][k].ip + ":6379"
    ensures i < |shards| ==> after[i].nodes[p].role == sts[i][k].role
  {
    assert FollowedShard(shards, after, sts, i);
    if i < |shards| {
      var base := shards[i].(nodes := Listed(shards[i].nodes, Ips(sts[i])));
      ListedIps(shards[i].nodes, Ips(sts[i]));
      p := AppendedAt(base, after[i], sts[i], k);
    } else {
      var base :| Created(base, sts[i]) && Extended(base, after[i], Missing(sts[i], ShardIps(base.nodes)));
      p := k;
      assert after[i].nodes[k] == base.nodes[k];
    }
    ServerPort();
  }

  lemma {:induction false} AppendedAt(base: Shard, after: Shard, sts: seq<Node>, k: nat) returns (p: nat)
    requires k < |sts| && sts[k].ip !in ShardIps(base.nodes)
    requires Extended(base, after, Missing(sts, ShardIps(base.nodes)))
    ensures p < |after.nodes| && after.nodes[p].addr == Addr(sts[k].ip) && after.nodes[p].role == sts[k].role
  {
    var q := MissingAt(sts, ShardIps(base.nodes), k);
    p := |base.nodes| + q;
  }

  lemma {:induction false} MissingAt(sts: seq<Node>, have: set<string>, k: nat) returns (q: nat)
    requires k < |sts| && sts[k].ip !in have
    ensures q < |Missing(sts, have)| && Missing(sts, have)[q] == sts[k]
  {
    var n := |sts| - 1;
    if k < n {
      q := MissingAt(sts[..n], have, k);
    } else {
      q := |Missing(sts[..n], have)|;
    }
  }

  lemma {:induction false} ListedMember(nodes: seq<ShardNode>, ips: set<string>, k: nat)
    requires k < |nodes| && SimplyIp(nodes[k].addr) in ips
    ensures nodes[k] in Listed(nodes, ips)
  {
    var n := |nodes| - 1;
    if k < n {
      ListedMember(nodes[..n], ips, k);
      assert nodes[..n][k] == nodes[k];
    }
  }

  // ----- a converged table is left alone, and only that -----

  lemma {:induction false} NoDeletesIff(index: int, nodes: seq<ShardNode>, ips: set<string>)
    ensures DeleteCalls(index, nodes, ips) == [] <==> ShardIps(nodes) <= ips
    ensures DeleteCalls(index, nodes, ips) == [] ==> Listed(nodes, ips) == nodes
  {
    if nodes != [] {
      var n := |nodes| - 1;
      NoDeletesIff(index, nodes[..n], ips);
      assert nodes == nodes[..n] + [nodes[n]];
      ShardIpsSnoc(nodes[..n], nodes[n]);
    }
  }

  lemma {:induction false} NoAddsIff(index: int, sts: seq<Node>, have: set<string>)
    ensures AddCalls(index, Missing(sts, have)) == [] <==> Ips(sts) <= have
  {
    MissingIps(sts, have);
    var m := Missing(sts, have);
    SubsetIffNoDifference(Ips(sts), have);
    assert Ips(m) == {} <==> m == [] by {
      if m != [] {
        assert m[0].ip in Ips(m);
      }
    }
  }

  ghost predicate NoRemoval(shards: seq<Shard>, sts: seq<seq<Node>>, n: nat)
    requires n <= |sts|
  {
    n <= |shards| && forall i :: 0 <= i < n ==> ShardIps(shards[i].nodes) <= Ips(sts[i])
  }

  lemma {:induction false} NoRemoveStep(shards: seq<Shard>, sts: seq<seq<Node>>, i: nat)
    requires i < |sts| && (RemoveCalls(shards, sts[..i]) == [] <==> NoRemoval(shards, sts, i))
    ensures RemoveCalls(shards, sts[..i + 1]) == [] <==> NoRemoval(shards, sts, i + 1)
  {
    RemoveCallsSnoc(shards, sts, i);
    if i < |shards| {
      NoDeletesIff(i, shards[i].nodes, Ips(sts[i]));
    }
  }

  lemma {:induction false} NoRemoveCallsIff(shards: seq<Shard>, sts: seq<seq<Node>>, n: nat)
    requires n <= |sts|
    ensures RemoveCalls(shards, sts[..n]) == [] <==> NoRemoval(shards, sts, n)
  {
    if n > 0 {
      NoRemoveCallsIff(shards, sts, n - 1);
      NoRemoveStep(shards, sts, n - 1);
    }
  }

  // No pod of the first n StatefulSets lacks a node.
  ghost predicate NoAddition(shards: seq<Shard>, sts: seq<seq<Node>>, n: nat)
    requires n <= |sts|
  {
    n == 0 || (NoAddition(shards, sts, n - 1) && Ips(sts[n - 1]) <= Have(shards, sts, n - 1))
  }

  lemma {:induction false} NoAdditionIff(shards: seq<Shard>, sts: seq<seq<Node>>, n: nat)
    requires n <= |sts| && n <= |shards|
    requires forall i :: 0 <= i < n ==> Have(shards, sts, i) == ShardIps(shards[i].nodes)
    ensures NoAddition(shards, sts, n) <==> forall i :: 0 <= i < n ==> Ips(sts[i]) <= ShardIps(shards[i].nodes)
  {
    if n > 0 {
      NoAdditionIff(shards, sts, n - 1);
    }
  }

  lemma {:induction false} NoAddPhaseCallsIff(shards: seq<Shard>, sts: seq<seq<Node>>, n: nat)
    requires n <= |sts|
    ensures AddPhaseCalls(shards, sts, n) == [] <==> NoAddition(shards, sts, n)
  {
    for i := 0 to n
      invariant AddPhaseCalls(shards, sts, i) == [] <==> NoAddition(shards, sts, i)
    {
      NoAddPhaseStep(shards, sts, i);
    }
  }

  lemma {:induction false} NoAddPhaseStep(shards: seq<Shard>, sts: seq<seq<Node>>, i: nat)
    requires i < |sts| && (AddPhaseCalls(shards, sts, i) == [] <==> NoAddition(shards, sts, i))
    ensures AddPhaseCalls(shards, sts, i + 1) == [] <==> NoAddition(shards, sts, i + 1)
  {
    NoAddsIff(i, sts[i], Have(shards, sts, i));
    assert NoAddition(shards, sts, i + 1) <==> NoAddition(shards, sts, i) && Ips(sts[i]) <= Have(shards, sts, i);
  }

  // A run of updateCluster makes no mutating call if and only if the table already
  // matches the pods. So a second run is silent exactly when the first converged.
  lemma {:induction false} SilentIffConverged(shards: seq<Shard>, sts: seq<seq<Node>>)
    ensures UpdateCalls(shards, sts) == [] <==> Converged(shards, sts)
  {
    assert sts[..|sts|] == sts;
    NoRemoveCallsIff(shards, sts, |sts|);
    NoAddPhaseCallsIff(shards, sts, |sts|);
    if NoRemoval(shards, sts, |sts|) {
      forall i | 0 <= i < |sts|
        ensures Have(shards, sts, i) == ShardIps(shards[i].nodes)
      {
        ListedIps(shards[i].nodes, Ips(sts[i]));
      }
      NoAdditionIff(shards, sts, |sts|);
    }
  }

  // One pod with an IPv6 address: no run makes the table match it, and none is silent.
  lemma {:induction false} Ipv6NeverConverges(shards: seq<Shard>, after: seq<Shard>, pod: Node)
    requires pod.ip == "fd00::1" && Followed(shards, after, [[pod]])
    ensures !Converged(after, [[pod]]) && UpdateCalls(after, [[pod]]) != []
  {
    assert pod.ip[4] == ':';
    var nodes := [pod];
    assert ':' in nodes[0].ip;
    assert [nodes][0] == nodes;
    assert !AllColonFree([nodes]);
    ConvergesIff(shards, after, [[pod]]);
    SilentIffConverged(after, [[pod]]);
  }

  // ----- ensureSetNodeID -----

  // The first node of the shard at the pod's address.
  function NodeAt(ip: string, nodes: seq<ShardNode>): (r: Option<ShardNode>)
    ensures r == None <==> ip !in ShardIps(nodes)
    ensures r.Some? ==> r.value in nodes && SimplyIp(r.value.addr) == ip
  {
    if nodes == [] then None
    else
      assert nodes == [nodes[0]] + nodes[1..];
      assert ShardIps(nodes) == {SimplyIp(nodes[0].addr)} + ShardIps(nodes[1..]) by { ShardIpsCons(nodes); }
      if SimplyIp(nodes[0].addr) == ip then Some(nodes[0]) else NodeAt(ip, nodes[1..])
  }

  lemma {:induction false} ShardIpsCons(nodes: seq<ShardNode>)
    requires nodes != []
    ensures ShardIps(nodes) == {SimplyIp(nodes[0].addr)} + ShardIps(nodes[1..])
  {
    assert forall k :: 1 <= k < |nodes| ==> nodes[1..][k - 1] == nodes[k];
    assert forall k :: 0 <= k < |nodes| - 1 ==> nodes[1..][k] == nodes[k + 1];
  }

  function SetNode(n: Node, shard: Shard, masterID: string): (r: Node) {
    match NodeAt(n.ip, shard.nodes)
    case None => n
    case Some(s) =>
      n.(nodeId := s.id, slots := Decode(shard.slotRanges),
         role := if s.role == MASTER then MASTER else SLAVE,
         master := if s.role == MASTER then "" else masterID)
  }

  function SetNodes(sts: seq<Node>, shard: Shard): (r: seq<Node>)
    ensures |r| == |sts| && forall j :: 0 <= j < |r| ==> r[j] == SetNode(sts[j], shard, FirstMaster(shard.nodes))
  {
    seq(|sts|, j requires 0 <= j < |sts| => SetNode(sts[j], shard, FirstMaster(shard.nodes)))
  }

  // The inner loop: one pod looks for its node.
  method SetNodeID(n: Node, shard: Shard, masterID: string) returns (node: Node)
    ensures node == SetNode(n, shard, masterID)
  {
    node := n;
    for k := 0 to |shard.nodes|
      invariant node == n && NodeAt(n.ip, shard.nodes) == NodeAt(n.ip, shard.nodes[k..])
    {
      var s := shard.nodes[k];
      if SimplyIp(s.addr) == n.ip {
        node := node.(nodeId := s.id);
        if s.role == MASTER {
          node := node.(role := MASTER, master := "", slots := Decode(shard.slotRanges));
        } else {
          node := node.(role := SLAVE, master := masterID, slots := Decode(shard.slotRanges));
        }
        break;
      }
      assert shard.nodes[k..][1..] == shard.nodes[k + 1..];
    }
  }

  datatype SetOutcome = AllSet | NoMaster | CallFailed

  // A pod labelled with its role.
  datatype Label = Label(pod: string, role: string)

  function LabelsOf(instance: string, shard: int, nodes: seq<Node>): (r: seq<Label>)
    ensures |r| == |nodes|
    ensures forall j :: 0 <= j < |r| ==> r[j] == Label(PodName(instance, shard, nodes[j].podIndex), nodes[j].role)
  {
    seq(|nodes|, j requires 0 <= j < |nodes| => Label(PodName(instance, shard, nodes[j].podIndex), nodes[j].role))
  }

  lemma {:induction false} PrefixTo<T>(s: seq<T>, j: nat)
    requires j <= |s|
    ensures s[..j] <= s
  {
  }

  // One shard of ensureSetNodeID; labelling a pod may fail.
  method SetShardNodeIDs(instance: string, index: int, sts: seq<Node>, shard: Shard)
    returns (r: SetOutcome, nodes: seq<Node>, labelled: seq<Label>)
    ensures r == NoMaster <==> FirstMaster(shard.nodes) == ""
    ensures r == NoMaster ==> labelled == []
    ensures labelled <= LabelsOf(instance, index, SetNodes(sts, shard))
    ensures r == AllSet ==> nodes == SetNodes(sts, shard) && labelled == LabelsOf(instance, index, nodes)
  {
    nodes, labelled := [], [];
    var masterID := FindMaster(shard.nodes);
    if masterID == "" {
      return NoMaster, sts, [];
    }
    ghost var all := SetNodes(sts, shard);
    ghost var labels := LabelsOf(instance, index, all);
    for j := 0 to |sts|
      invariant nodes == all[..j] && labelled == labels[..j]
    {
      var node := SetNodeID(sts[j], shard, masterID);
      var tag := Label(PodName(instance, index, node.podIndex), node.role);
      assert node == all[j] && tag == labels[j];
      var fails := *;
      if fails {
        PrefixTo(labels, j);
        return CallFailed, sts, labelled;
      }
      PrefixNext(labels, j);
      PrefixNext(all, j);
      nodes, labelled := nodes + [node], labelled + [tag];
    }
    r := AllSet;
  }

  // All label updates for the first n shards, in order.
  function AllLabels(instance: string, sts: seq<seq<Node>>, shards: seq<Shard>, n: nat): (r: seq<Label>)
    requires n <= |sts| <= |shards|
  {
    if n == 0 then []
    else AllLabels(instance, sts, shards, n - 1) + LabelsOf(instance, n - 1, SetNodes(sts[n - 1], shards[n - 1]))
  }

  lemma {:induction false} AllLabelsPrefix(instance: string, sts: seq<seq<Node>>, shards: seq<Shard>, k: nat)
    requires k <= |sts| <= |shards|
    ensures AllLabels(instance, sts, shards, k) <= AllLabels(instance, sts, shards, |sts|)
    decreases |sts| - k
  {
    if k < |sts| {
      AllLabelsPrefix(instance, sts, shards, k + 1);
    }
  }

  lemma {:induction false} LabelsSoFar(a: seq<Label>, b: seq<Label>, c: seq<Label>, all: seq<Label>)
    requires b <= c && a + c <= all
    ensures a + b <= all
  {
    assert a + b <= a + c;
  }

  // ensureSetNodeID over all shards. The answers to GetNodes are the rows of the
  // table; a call may fail. Wherever it stops, the pods labelled so far are those
  // a complete pass labels first.
  method EnsureSetNodeID(instance: string, sts: seq<seq<Node>>, shards: seq<Shard>)
    returns (r: SetOutcome, nodes: seq<seq<Node>>, labelled: seq<Label>)
    requires |sts| <= |shards|
    ensures r == AllSet ==>
      && |nodes| == |sts| && labelled == AllLabels(instance, sts, shards, |sts|)
      && forall i :: 0 <= i < |sts| ==> FirstMaster(shards[i].nodes) != "" && nodes[i] == SetNodes(sts[i], shards[i])
    ensures r == NoMaster ==> exists i :: 0 <= i < |sts| && FirstMaster(shards[i].nodes) == ""
    ensures labelled <= AllLabels(instance, sts, shards, |sts|)
  {
    nodes, labelled := [], [];
    for i := 0 to |sts|
      invariant |nodes| == i && labelled == AllLabels(instance, sts, shards, i)
      invariant forall k :: 0 <= k < i ==> FirstMaster(shards[k].nodes) != "" && nodes[k] == SetNodes(sts[k], shards[k])
    {
      AllLabelsPrefix(instance, sts, shards, i);
      AllLabelsPrefix(instance, sts, shards, i + 1);
      var fails := *;
      if fails {
        return CallFailed, nodes, labelled;
      }
      var list, some;
      r, list, some := SetShardNodeIDs(instance, i, sts[i], shards[i]);
      LabelsSoFar(labelled, some, LabelsOf(instance, i, SetNodes(sts[i], shards[i])),
                  AllLabels(instance, sts, shards, |sts|));
      labelled := labelled + some;
      if r != AllSet {
        return;
      }
      nodes := nodes + [list];
    }
    r := AllSet;
  }

  predicate DistinctShardIps(nodes: seq<ShardNode>) {
    forall i, j :: 0 <= i < j < |nodes| ==> SimplyIp(nodes[i].addr) != SimplyIp(nodes[j].addr)
  }

  predicate DistinctIps(nodes: seq<Node>) {
    forall i, j :: 0 <= i < j < |nodes| ==> nodes[i].ip != nodes[j].ip
  }

  // Node m is the master and every other node is a slave of it.
  predicate RecordStar(nodes: seq<Node>, m: nat) {
    && m < |nodes| && nodes[m].role == MASTER && nodes[m].master == ""
    && forall j :: 0 <= j < |nodes| && j != m ==> nodes[j].role == SLAVE && nodes[j].master == nodes[m].nodeId
  }

  lemma {:induction false} NodeAtUnique(nodes: seq<ShardNode>, k: nat)
    requires DistinctShardIps(nodes) && k < |nodes|
    ensures NodeAt(SimplyIp(nodes[k].addr), nodes) == Some(nodes[k])
  {
    if k > 0 {
      NodeAtUnique(nodes[1..], k - 1);
    }
  }

  // A pod with a node in the shard ends with the shard's slots, whatever was on
  // record; one without keeps its record.
  lemma {:induction false} ListedPodSlots(sts: seq<Node>, shard: Shard, slots: seq<int>, j: nat)
    requires shard.slotRanges == Encode(slots) && NonNegative(slots) && j < |sts|
    ensures sts[j].ip in ShardIps(shard.nodes) ==> SetNodes(sts, shard)[j].slots == Sorted(slots)
    ensures sts[j].ip !in ShardIps(shard.nodes) ==> SetNodes(sts, shard)[j] == sts[j]
  {
    RoundTrip(slots);
  }

  // With distinct addresses, the pod at the address of node k takes that node's id
  // and role; as a slave it names the first master of the shard. Address, ordinal,
  // flag and migrations stay.
  lemma {:induction false} ListedPodRecord(sts: seq<Node>, shard: Shard, m: nat, j: nat, k: nat)
    requires DistinctShardIps(shard.nodes) && FirstMasterIsAt(shard.nodes, m)
    requires j < |sts| && k < |shard.nodes| && SimplyIp(shard.nodes[k].addr) == sts[j].ip
    ensures var n := SetNodes(sts, shard)[j];
            && n.nodeId == shard.nodes[k].id && n.role == (if shard.nodes[k].role == MASTER then MASTER else SLAVE)
            && n.master == (if shard.nodes[k].role == MASTER then "" else shard.nodes[m].id)
            && n.ip == sts[j].ip && n.podIndex == sts[j].podIndex && n.failover == sts[j].failover
            && n.migrate == sts[j].migrate
  {
    NodeAtUnique(shard.nodes, k);
    FirstMasterFound(shard.nodes, m);
  }

  // The pod of ordinal podIndex in StatefulSet i is labelled with the role that the
  // controller gives it.
  lemma {:induction false} PodIsLabelled(instance: string, sts: seq<seq<Node>>, shards: seq<Shard>, n: nat, i: nat,
                                         j: nat, k: nat)
    requires i < n <= |sts| <= |shards| && j < |sts[i]|
    requires DistinctShardIps(shards[i].nodes) && k < |shards[i].nodes|
    requires SimplyIp(shards[i].nodes[k].addr) == sts[i][j].ip
    ensures Label(instance + "-" + Itoa(i) + "-" + Itoa(sts[i][j].podIndex),
                  if shards[i].nodes[k].role == MASTER then MASTER else SLAVE)
         in AllLabels(instance, sts, shards, n)
  {
    ShardIsLabelled(instance, sts, shards, n, i, j);
    NodeAtUnique(shards[i].nodes, k);
  }

  lemma {:induction false} ShardIsLabelled(instance: string, sts: seq<seq<Node>>, shards: seq<Shard>, n: nat, i: nat,
                                           j: nat)
    requires i < n <= |sts| <= |shards| && j < |sts[i]|
    ensures LabelsOf(instance, i, SetNodes(sts[i], shards[i]))[j] in AllLabels(instance, sts, shards, n)
  {
    var tag := LabelsOf(instance, i, SetNodes(sts[i], shards[i]))[j];
    LabelInNext(instance, sts, shards, i, tag);
    LabelStays(instance, sts, shards, i + 1, n, tag);
  }

  lemma {:induction false} LabelStays(instance: string, sts: seq<seq<Node>>, shards: seq<Shard>, i: nat, n: nat,
                                      tag: Label)
    requires i <= n <= |sts| <= |shards| && tag in AllLabels(instance, sts, shards, i)
    ensures tag in AllLabels(instance, sts, shards, n)
    decreases n - i
  {
    if i < n {
      LabelInNext(instance, sts, shards, i, tag);
      LabelStays(instance, sts, shards, i + 1, n, tag);
    }
  }

  lemma {:induction false} LabelInNext(instance: string, sts: seq<seq<Node>>, shards: seq<Shard>, k: nat, tag: Label)
    requires k < |sts| <= |shards|
    requires tag in AllLabels(instance, sts, shards, k) || tag in LabelsOf(instance, k, SetNodes(sts[k], shards[k]))
    ensures tag in AllLabels(instance, sts, shards, k + 1)
  {
  }

  // With one master in the controller's shard, distinct addresses, and a table
  // that matches the pods: the records form a star around the controller's master.
  lemma {:induction false} SetNodesMakeStar(sts: seq<Node>, shard: Shard, m: nat) returns (p: nat)
    requires OneMaster(shard.nodes, m) && DistinctShardIps(shard.nodes) && DistinctIps(sts)
    requires ShardIps(shard.nodes) == Ips(sts)
    ensures RecordStar(SetNodes(sts, shard), p)
    ensures SetNodes(sts, shard)[p].nodeId == shard.nodes[m].id
    ensures SetNodes(sts, shard)[p].ip == SimplyIp(shard.nodes[m].addr)
  {
    var masterIp := SimplyIp(shard.nodes[m].addr);
    assert masterIp in Ips(sts);
    p :| 0 <= p < |sts| && sts[p].ip == masterIp;
    FirstMasterIs(shard.nodes, m);
    NodeAtUnique(shard.nodes, m);
    var nodes := SetNodes(sts, shard);
    forall j | 0 <= j < |sts| && j != p
      ensures nodes[j].role == SLAVE && nodes[j].master == shard.nodes[m].id
    {
      assert sts[j].ip in Ips(sts);
      var s := NodeAt(sts[j].ip, shard.nodes).value;
      var k :| 0 <= k < |shard.nodes| && shard.nodes[k] == s;
      assert k != m;
    }
  }

  // ----- ensureMigrate -----

  // The shard number of each master, in the order the masters are collected.
  function MasterShards(sts: seq<seq<Node>>): (r: seq<int>) {
    if sts == [] then []
    else
      var n := |sts| - 1;
      MasterShards(sts[..n]) + seq(CountMasters(sts[n]), _ => n)
  }

  function CountMasters(nodes: seq<Node>): (n: nat) {
    if nodes == [] then 0
    else CountMasters(nodes[..|nodes| - 1]) + if nodes[|nodes| - 1].role == MASTER then 1 else 0
  }

  function MastersOf(nodes: seq<Node>): (r: seq<Node>)
    ensures |r| == CountMasters(nodes)
    ensures forall k :: 0 <= k < |r| ==> r[k] in nodes && r[k].role == MASTER
  {
    if nodes == [] then []
    else
      var n := |nodes| - 1;
      MastersOf(nodes[..n]) + if nodes[n].role == MASTER then [nodes[n]] else []
  }

  function AllMasters(sts: seq<seq<Node>>): (r: seq<Node>)
    ensures |r| == |MasterShards(sts)|
  {
    if sts == [] then [] else AllMasters(sts[..|sts| - 1]) + MastersOf(sts[|sts| - 1])
  }

  lemma {:induction false} MastersOfSnoc(nodes: seq<Node>, j: nat)
    requires j < |nodes|
    ensures MastersOf(nodes[..j + 1]) == MastersOf(nodes[..j]) + if nodes[j].role == MASTER then [nodes[j]] else []
  {
    assert nodes[..j + 1][..j] == nodes[..j];
  }

  lemma {:induction false} AllMastersSnoc(sts: seq<seq<Node>>, i: nat)
    requires i < |sts|
    ensures AllMasters(sts[..i + 1]) == AllMasters(sts[..i]) + MastersOf(sts[i])
  {
    assert sts[..i + 1][..i] == sts[..i];
  }

  // The masters of one shard, behind those collected before.
  method CollectMasters(before: seq<Node>, nodes: seq<Node>) returns (masters: seq<Node>)
    ensures masters == before + MastersOf(nodes)
  {
    masters := before;
    for j := 0 to |nodes|
      invariant masters == before + MastersOf(nodes[..j])
    {
      MastersOfSnoc(nodes, j);
      if nodes[j].role == MASTER {
        masters := masters + [nodes[j]];
      }
    }
    assert nodes[..|nodes|] == nodes;
  }

  // The masters list and the first of them with a migration: its position is the
  // migration's source shard.
  method FindMigration(sts: seq<seq<Node>>) returns (r: Option<(int, Node)>)
    ensures r == None <==> forall k :: 0 <= k < |AllMasters(sts)| ==> AllMasters(sts)[k].migrate == []
    ensures r.Some? ==>
      && 0 <= r.value.0 < |AllMasters(sts)| && AllMasters(sts)[r.value.0] == r.value.1
      && r.value.1.migrate != []
      && forall k :: 0 <= k < r.value.0 ==> AllMasters(sts)[k].migrate == []
  {
    var masters: seq<Node> := [];
    for i := 0 to |sts|
      invariant masters == AllMasters(sts[..i])
    {
      AllMastersSnoc(sts, i);
      masters := CollectMasters(masters, sts[i]);
    }
    assert sts[..|sts|] == sts;
    for index := 0 to |masters|
      invariant forall k :: 0 <= k < index ==> masters[k].migrate == []
    {
      if masters[index].migrate != [] {
        return Some((index, masters[index]));
      }
    }
    return None;
  }

  // A shard that has masters has one, and so have all shards before it.
  ghost predicate OneEach(sts: seq<seq<Node>>) {
    forall j :: 0 <= j < |sts| && CountMasters(sts[j]) > 0 ==>
      CountMasters(sts[j]) == 1 && forall i :: 0 <= i < j ==> CountMasters(sts[i]) == 1
  }

  ghost predicate InPlace(shards: seq<int>) {
    forall k :: 0 <= k < |shards| ==> shards[k] == k
  }

  lemma {:induction false} MasterShardsBound(sts: seq<seq<Node>>)
    requires OneEach(sts)
    ensures |MasterShards(sts)| <= |sts|
    ensures |MasterShards(sts)| == |sts| <==> forall i :: 0 <= i < |sts| ==> CountMasters(sts[i]) == 1
  {
    if sts != [] {
      var n := |sts| - 1;
      assert forall i :: 0 <= i < n ==> sts[..n][i] == sts[i];
      MasterShardsBound(sts[..n]);
    }
  }

  lemma {:induction false} MasterShardsSnoc(sts: seq<seq<Node>>, n: nat)
    requires n < |sts|
    ensures MasterShards(sts[..n + 1]) == MasterShards(sts[..n]) + seq(CountMasters(sts[n]), _ => n)
  {
    assert sts[..n + 1][..n] == sts[..n];
  }

  // Adding a shard's masters at the end keeps the list in place exactly when there
  // are none, or one and the list is full so far.
  lemma {:induction false} InPlaceSnoc(before: seq<int>, n: nat, c: nat)
    ensures InPlace(before + seq(c, _ => n)) <==> InPlace(before) && (c == 0 || (c == 1 && |before| == n))
  {
    var all := before + seq(c, _ => n);
    assert forall k :: 0 <= k < |before| ==> all[k] == before[k];
    assert c > 0 ==> all[|before|] == n;
    assert c > 1 ==> all[|before| + 1] == n;
  }

  lemma {:induction false} OneEachSnoc(sts: seq<seq<Node>>, n: nat)
    requires n < |sts|
    ensures OneEach(sts[..n + 1]) <==>
      OneEach(sts[..n]) && (CountMasters(sts[n]) == 0 ||
        (CountMasters(sts[n]) == 1 && forall i :: 0 <= i < n ==> CountMasters(sts[i]) == 1))
  {
    var a, b := sts[..n], sts[..n + 1];
    assert forall i :: 0 <= i < n ==> a[i] == b[i] == sts[i];
    assert b[n] == sts[n];
  }

  lemma {:induction false} PositionIsShardStep(sts: seq<seq<Node>>, i: nat)
    requires i < |sts| && (InPlace(MasterShards(sts[..i])) <==> OneEach(sts[..i]))
    ensures InPlace(MasterShards(sts[..i + 1])) <==> OneEach(sts[..i + 1])
  {
    MasterShardsSnoc(sts, i);
    InPlaceSnoc(MasterShards(sts[..i]), i, CountMasters(sts[i]));
    OneEachSnoc(sts, i);
    if OneEach(sts[..i]) {
      MasterShardsBound(sts[..i]);
      assert forall k :: 0 <= k < i ==> sts[..i][k] == sts[k];
    }
  }

  lemma {:induction false} PositionIsShardTo(sts: seq<seq<Node>>, n: nat)
    requires n <= |sts|
    ensures InPlace(MasterShards(sts[..n])) <==> OneEach(sts[..n])
  {
    if n > 0 {
      PositionIsShardTo(sts, n - 1);
      PositionIsShardStep(sts, n - 1);
    }
  }

  // The position of every collected master is its shard number if and only if no
  // shard has two masters and no shard without one comes before one with one.
  lemma {:induction false} PositionIsShardIff(sts: seq<seq<Node>>)
    ensures InPlace(MasterShards(sts)) <==> OneEach(sts)
  {
    PositionIsShardTo(sts, |sts|);
    assert sts[..|sts|] == sts;
  }

  // The shard a collected master belongs to.
  lemma {:induction false} MasterBelongs(sts: seq<seq<Node>>, k: nat)
    requires k < |AllMasters(sts)|
    ensures 0 <= MasterShards(sts)[k] < |sts|
    ensures AllMasters(sts)[k] in sts[MasterShards(sts)[k]]
  {
    var n := |sts| - 1;
    if k < |MasterShards(sts[..n])| {
      MasterBelongs(sts[..n], k);
    }
  }

  lemma {:induction false} StarHasOneMaster(nodes: seq<Node>, m: nat)
    requires RecordStar(nodes, m)
    ensures CountMasters(nodes) == 1
  {
    CountOnly(nodes, m, |nodes|);
    assert nodes[..|nodes|] == nodes;
  }

  lemma {:induction false} CountOnly(nodes: seq<Node>, m: nat, n: nat)
    requires m < |nodes| && n <= |nodes|
    requires forall j :: 0 <= j < |nodes| ==> (nodes[j].role == MASTER <==> j == m)
    ensures CountMasters(nodes[..n]) == if m < n then 1 else 0
  {
    if n > 0 {
      CountOnly(nodes, m, n - 1);
      assert nodes[..n][..n - 1] == nodes[..n - 1];
    }
  }

  lemma {:induction false} DistinctSnoc(nodes: seq<ShardNode>, x: ShardNode)
    requires DistinctShardIps(nodes) && SimplyIp(x.addr) !in ShardIps(nodes)
    ensures DistinctShardIps(nodes + [x])
  {
  }

  lemma {:induction false} ListedDistinct(nodes: seq<ShardNode>, ips: set<string>)
    requires DistinctShardIps(nodes)
    ensures DistinctShardIps(Listed(nodes, ips))
  {
    if nodes != [] {
      var n := |nodes| - 1;
      ListedDistinct(nodes[..n], ips);
      ListedIps(nodes[..n], ips);
      if SimplyIp(nodes[n].addr) in ips {
        assert SimplyIp(nodes[n].addr) !in ShardIps(nodes[..n]);
        DistinctSnoc(Listed(nodes[..n], ips), nodes[n]);
      }
    }
  }

  lemma {:induction false} MissingDistinct(sts: seq<Node>, have: set<string>)
    requires DistinctIps(sts)
    ensures DistinctIps(Missing(sts, have))
  {
    if sts != [] {
      var n := |sts| - 1;
      MissingDistinct(sts[..n], have);
      MissingIps(sts[..n], have);
      var rest := Missing(sts[..n], have);
      assert sts[n].ip !in Ips(sts[..n]);
      assert forall k :: 0 <= k < |rest| ==> rest[k].ip in Ips(rest);
    }
  }

  lemma {:induction false} CreatedDistinct(s: Shard, sts: seq<Node>)
    requires Created(s, sts) && ColonFree(sts) && DistinctIps(sts)
    ensures DistinctShardIps(s.nodes)
  {
    forall k | 0 <= k < |sts|
      ensures SimplyIp(s.nodes[k].addr) == sts[k].ip
    {
      SimplyIpOfAddr(sts[k].ip);
    }
  }

  lemma {:induction false} ExtendedDistinct(a: Shard, b: Shard, added: seq<Node>)
    requires Extended(a, b, added) && ColonFree(added) && DistinctIps(added)
    requires DistinctShardIps(a.nodes) && Ips(added) !! ShardIps(a.nodes)
    ensures DistinctShardIps(b.nodes)
  {
    var n := |a.nodes|;
    forall k | 0 <= k < |b.nodes|
      ensures k < n ==> SimplyIp(b.nodes[k].addr) in ShardIps(a.nodes) && b.nodes[k] == a.nodes[k]
      ensures k >= n ==> SimplyIp(b.nodes[k].addr) == added[k - n].ip && added[k - n].ip in Ips(added)
    {
      if k < n {
        assert b.nodes[k] == a.nodes[k];
      } else {
        assert b.nodes[n + (k - n)].addr == Addr(added[k - n].ip);
        SimplyIpOfAddr(added[k - n].ip);
      }
    }
  }

  // A table with distinct addresses in each shard stays one.
  lemma {:induction false} FollowedDistinct(shards: seq<Shard>, after: seq<Shard>, sts: seq<seq<Node>>, i: nat)
    requires i < |sts| && i < |after| && FollowedShard(shards, after, sts, i)
    requires ColonFree(sts[i]) && DistinctIps(sts[i]) && (i < |shards| ==> DistinctShardIps(shards[i].nodes))
    ensures DistinctShardIps(after[i].nodes)
  {
    var base: Shard;
    if i < |shards| {
      base := shards[i].(nodes := Listed(shards[i].nodes, Ips(sts[i])));
      ListedDistinct(shards[i].nodes, Ips(sts[i]));
    } else {
      base :| Created(base, sts[i]) && Extended(base, after[i], Missing(sts[i], ShardIps(base.nodes)));
      CreatedDistinct(base, sts[i]);
    }
    MissingIps(sts[i], ShardIps(base.nodes));
    MissingDistinct(sts[i], ShardIps(base.nodes));
    ExtendedDistinct(base, after[i], Missing(sts[i], ShardIps(base.nodes)));
  }

  // updateCluster, then ensureSetNodeID, then ensureMigrate: with one master to
  // each shard of the controller, the records of every shard form a star around
  // it, one master is collected for each shard, and the position passed as
  // migration source is that master's shard.
  lemma {:induction false} MigrationSourceIsShard(shards: seq<Shard>, table: seq<Shard>, sts: seq<seq<Node>>,
                                                  after: seq<seq<Node>>, masters: seq<nat>, k: nat)
    requires Followed(shards, table, sts) && |after| == |sts| == |masters| && k < |sts|
    requires forall i :: 0 <= i < |shards| ==> DistinctShardIps(shards[i].nodes)
    requires forall i :: 0 <= i < |sts| ==> ColonFree(sts[i]) && DistinctIps(sts[i])
    requires forall i :: 0 <= i < |sts| ==>
      OneMaster(table[i].nodes, masters[i]) && after[i] == SetNodes(sts[i], table[i])
    ensures exists p :: RecordStar(after[k], p)
    ensures |AllMasters(after)| == |sts| && AllMasters(after)[k] in after[k]
  {
    forall i | 0 <= i < |sts|
      ensures CountMasters(after[i]) == 1 && exists p :: RecordStar(after[i], p)
    {
      FollowedShardIps(shards, table, sts, i);
      FollowedDistinct(shards, table, sts, i);
      var p := SetNodesMakeStar(sts[i], table[i], masters[i]);
      StarHasOneMaster(after[i], p);
    }
    assert OneEach(after);
    PositionIsShardIff(after);
    MasterShardsBound(after);
    MasterBelongs(after, k);
  }
}
