// The in-memory nodes of a cluster, the topology persisted in the instance's
// status, and the two conversions between them.
module Topology {
  import opened Text
  import opened Counting
  import opened SlotRanges

  const MASTER := "master"
  const SLAVE := "slave"

  datatype Migration = Migration(shard: int, slots: seq<int>)

  datatype Node = Node(ip: string, role: string, podIndex: int, slots: seq<int>,
                       nodeId: string, master: string, failover: bool, migrate: seq<Migration>)

  datatype SavedMigration = SavedMigration(shard: int, slots: seq<string>)

  datatype Entry = Entry(pod: string, role: string, nodeId: string, ip: string, slots: seq<string>,
                         masterId: string, migrate: seq<SavedMigration>, failover: bool)

  datatype Partition = Partition(name: string, shard: int, topology: seq<Entry>)

  datatype Pod = Pod(ip: string, ordinal: int)

  function StatefulSetName(instance: string, shard: int): (name: string) {
    instance + "-" + Itoa(shard)
  }

  function PodName(instance: string, shard: int, ordinal: int): (name: string) {
    StatefulSetName(instance, shard) + "-" + Itoa(ordinal)
  }

  function Ips(nodes: seq<Node>): (r: set<string>) {
    set k | 0 <= k < |nodes| :: nodes[k].ip
  }

  // ----- save -----

  function SaveMigrations(migrate: seq<Migration>): (r: seq<SavedMigration>)
    ensures |r| == |migrate|
    ensures forall i :: 0 <= i < |r| ==> r[i] == SavedMigration(migrate[i].shard, Encode(migrate[i].slots))
  {
    seq(|migrate|, i requires 0 <= i < |migrate| =>
      SavedMigration(migrate[i].shard, Encode(migrate[i].slots)))
  }

  // The entry of one node; `j` is its position in the list, and Failover is not
  // written.
  function SaveNode(name: string, j: int, node: Node): (e: Entry) {
    Entry(name + "-" + Itoa(j), node.role, node.nodeId, node.ip, Encode(node.slots),
          node.master, SaveMigrations(node.migrate), false)
  }

  // One shard; nodes set to nil are left out and the rest close up.
  function SaveShard(name: string, nodes: seq<Option<Node>>): (r: seq<Entry>)
    ensures |r| <= |nodes|
  {
    if nodes == [] then []
    else
      var j := |nodes| - 1;
      SaveShard(name, nodes[..j]) +
      if nodes[j].Some? then [SaveNode(name, j, nodes[j].value)] else []
  }

  function SavePartition(instance: string, i: int, nodes: seq<Option<Node>>): (p: Partition) {
    var name := StatefulSetName(instance, i);
    Partition(name, i, SaveShard(name, nodes))
  }

  // The whole topology; a shard that is nil (no nodes) is left out.
  function Save(instance: string, sts: seq<seq<Option<Node>>>): (r: seq<Partition>)
    ensures |r| <= |sts|
  {
    if sts == [] then []
    else
      var i := |sts| - 1;
      Save(instance, sts[..i]) +
      if sts[i] != [] then [SavePartition(instance, i, sts[i])] else []
  }

  lemma {:induction false} SaveShardSnoc(name: string, nodes: seq<Option<Node>>, j: nat)
    requires j < |nodes|
    ensures SaveShard(name, nodes[..j + 1])
         == SaveShard(name, nodes[..j]) + if nodes[j].Some? then [SaveNode(name, j, nodes[j].value)] else []
  {
    assert nodes[..j + 1][..j] == nodes[..j];
  }

  lemma {:induction false} SaveSnoc(instance: string, sts: seq<seq<Option<Node>>>, i: nat)
    requires i < |sts|
    ensures Save(instance, sts[..i + 1])
         == Save(instance, sts[..i]) + if sts[i] != [] then [SavePartition(instance, i, sts[i])] else []
  {
    assert sts[..i + 1][..i] == sts[..i];
  }

  // SlotsToString sorts its argument, so saving sorts the slot lists of the nodes.
  function SortedMigrations(migrate: seq<Migration>): (r: seq<Migration>)
    ensures |r| == |migrate|
    ensures forall i :: 0 <= i < |r| ==> r[i] == Migration(migrate[i].shard, Sorted(migrate[i].slots))
  {
    seq(|migrate|, i requires 0 <= i < |migrate| => Migration(migrate[i].shard, Sorted(migrate[i].slots)))
  }

  function SortedNode(n: Node): (r: Node) {
    n.(slots := Sorted(n.slots), migrate := SortedMigrations(n.migrate))
  }

  function SortedShard(nodes: seq<Option<Node>>): (r: seq<Option<Node>>)
    ensures |r| == |nodes|
    ensures forall j :: 0 <= j < |r| ==> r[j] == if nodes[j].Some? then Some(SortedNode(nodes[j].value)) else None
  {
    seq(|nodes|, j requires 0 <= j < |nodes| => if nodes[j].Some? then Some(SortedNode(nodes[j].value)) else None)
  }

  function SortedShards(sts: seq<seq<Option<Node>>>): (r: seq<seq<Option<Node>>>)
    ensures |r| == |sts| && forall i :: 0 <= i < |r| ==> r[i] == SortedShard(sts[i])
  {
    seq(|sts|, i requires 0 <= i < |sts| => SortedShard(sts[i]))
  }

  method SaveNodeMessage(name: string, j: int, node: Node) returns (topo: Entry, after: Node)
    ensures topo == SaveNode(name, j, node) && after == SortedNode(node)
  {
    var migrate: seq<SavedMigration>, sorted: seq<Migration> := [], [];
    for k := 0 to |node.migrate|
      invariant migrate == SaveMigrations(node.migrate)[..k]
      invariant sorted == SortedMigrations(node.migrate)[..k]
    {
      var m := node.migrate[k];
      PrefixNext(SaveMigrations(node.migrate), k);
      PrefixNext(SortedMigrations(node.migrate), k);
      migrate := migrate + [SavedMigration(m.shard, Encode(m.slots))];
      sorted := sorted + [Migration(m.shard, Sorted(m.slots))];
    }
    assert migrate == SaveMigrations(node.migrate);
    topo := Entry(name + "-" + Itoa(j), node.role, node.nodeId, node.ip, Encode(node.slots), node.master,
                  migrate, false);
    after := node.(slots := Sorted(node.slots), migrate := sorted);
  }

  // The inner loop of ensureStatusTopoMsg.
  method SaveShardMessages(name: string, nodes: seq<Option<Node>>)
    returns (topoes: seq<Entry>, after: seq<Option<Node>>)
    ensures topoes == SaveShard(name, nodes) && after == SortedShard(nodes)
  {
    topoes, after := [], [];
    for j := 0 to |nodes|
      invariant topoes == SaveShard(name, nodes[..j]) && after == SortedShard(nodes)[..j]
    {
      SaveShardSnoc(name, nodes, j);
      PrefixNext(SortedShard(nodes), j);
      if nodes[j] == None {
        after := after + [None];
        continue;
      }
      var topo, sorted := SaveNodeMessage(name, j, nodes[j].value);
      topoes := topoes + [topo];
      after := after + [Some(sorted)];
    }
    assert nodes[..|nodes|] == nodes;
  }

  // ensureStatusTopoMsg up to its update; `after` are the nodes it leaves in memory.
  method EnsureStatusTopoMsg(instance: string, sts: seq<seq<Option<Node>>>)
    returns (topo: seq<Partition>, after: seq<seq<Option<Node>>>)
    ensures topo == Save(instance, sts) && after == SortedShards(sts)
  {
    topo, after := [], [];
    for i := 0 to |sts|
      invariant topo == Save(instance, sts[..i]) && after == SortedShards(sts[..i])
    {
      SaveSnoc(instance, sts, i);
      SortedShardsSnoc(sts, i);
      if sts[i] == [] {
        after := after + [[]];
        continue;
      }
      var partitionName := StatefulSetName(instance, i);
      var topoes, sorted := SaveShardMessages(partitionName, sts[i]);
      topo := topo + [Partition(partitionName, i, topoes)];
      after := after + [sorted];
    }
    assert sts[..|sts|] == sts;
  }

  lemma {:induction false} SortedShardsSnoc(sts: seq<seq<Option<Node>>>, i: nat)
    requires i < |sts|
    ensures SortedShards(sts[..i + 1]) == SortedShards(sts[..i]) + [SortedShard(sts[i])]
    ensures sts[i] == [] ==> SortedShard(sts[i]) == []
  {
  }

  lemma {:induction false} EncodeSorted(slots: seq<int>)
    ensures Encode(Sorted(slots)) == Encode(slots)
  {
    SortedSorts(slots);
    SortedOfAscending(Sorted(slots));
  }

  lemma {:induction false} SaveSortedNode(name: string, j: int, n: Node)
    ensures SaveNode(name, j, SortedNode(n)) == SaveNode(name, j, n)
  {
    EncodeSorted(n.slots);
    forall i | 0 <= i < |n.migrate|
      ensures SaveMigrations(SortedMigrations(n.migrate))[i] == SaveMigrations(n.migrate)[i]
    {
      EncodeSorted(n.migrate[i].slots);
    }
  }

  lemma {:induction false} SaveSortedShardStep(name: string, nodes: seq<Option<Node>>, i: nat)
    requires i < |nodes| && SaveShard(name, SortedShard(nodes)[..i]) == SaveShard(name, nodes[..i])
    ensures SaveShard(name, SortedShard(nodes)[..i + 1]) == SaveShard(name, nodes[..i + 1])
  {
    SaveShardSnoc(name, nodes, i);
    SaveShardSnoc(name, SortedShard(nodes), i);
    if nodes[i].Some? {
      SaveSortedNode(name, i, nodes[i].value);
    }
  }

  lemma {:induction false} SaveSortedShardTo(name: string, nodes: seq<Option<Node>>, k: nat)
    requires k <= |nodes|
    ensures SaveShard(name, SortedShard(nodes)[..k]) == SaveShard(name, nodes[..k])
  {
    if k > 0 {
      SaveSortedShardTo(name, nodes, k - 1);
      SaveSortedShardStep(name, nodes, k - 1);
    }
  }

  lemma {:induction false} SaveSortedShard(name: string, nodes: seq<Option<Node>>)
    ensures SaveShard(name, SortedShard(nodes)) == SaveShard(name, nodes)
  {
    SaveSortedShardTo(name, nodes, |nodes|);
    assert nodes[..|nodes|] == nodes;
    assert SortedShard(nodes)[..|nodes|] == SortedShard(nodes);
  }

  // What one shard adds to a saved topology.
  function ShardAdds(instance: string, i: int, nodes: seq<Option<Node>>): (r: seq<Partition>) {
    if nodes != [] then [SavePartition(instance, i, nodes)] else []
  }

  lemma {:induction false} ShardAddsSorted(instance: string, i: int, nodes: seq<Option<Node>>)
    ensures ShardAdds(instance, i, SortedShard(nodes)) == ShardAdds(instance, i, nodes)
  {
    SaveSortedShard(StatefulSetName(instance, i), nodes);
    assert |SortedShard(nodes)| == |nodes|;
  }

  lemma {:induction false} SaveAdds(instance: string, sts: seq<seq<Option<Node>>>, i: nat)
    requires i < |sts|
    ensures Save(instance, sts[..i + 1]) == Save(instance, sts[..i]) + ShardAdds(instance, i, sts[i])
  {
    SaveSnoc(instance, sts, i);
  }

  lemma {:induction false} SaveSortedStep(instance: string, sts: seq<seq<Option<Node>>>, i: nat)
    requires i < |sts| && Save(instance, SortedShards(sts)[..i]) == Save(instance, sts[..i])
    ensures Save(instance, SortedShards(sts)[..i + 1]) == Save(instance, sts[..i + 1])
  {
    var sorted := SortedShards(sts);
    SaveAdds(instance, sts, i);
    SaveAdds(instance, sorted, i);
    ShardAddsSorted(instance, i, sts[i]);
  }

  lemma {:induction false} SaveSortedTo(instance: string, sts: seq<seq<Option<Node>>>, k: nat)
    requires k <= |sts|
    ensures Save(instance, SortedShards(sts)[..k]) == Save(instance, sts[..k])
  {
    if k > 0 {
      SaveSortedTo(instance, sts, k - 1);
      SaveSortedStep(instance, sts, k - 1);
    }
  }

  // The slots a save leaves sorted in memory do not change what the next save writes.
  lemma {:induction false} SaveAgain(instance: string, sts: seq<seq<Option<Node>>>)
    ensures Save(instance, SortedShards(sts)) == Save(instance, sts)
  {
    SaveSortedTo(instance, sts, |sts|);
    assert sts[..|sts|] == sts && SortedShards(sts)[..|sts|] == SortedShards(sts);
  }

  // ----- load -----

  function Blank(pod: Pod): (n: Node) {
    Node(pod.ip, "", pod.ordinal, [], "", "", false, [])
  }

  function LoadMigrations(migrate: seq<SavedMigration>): (r: seq<Migration>)
    ensures |r| == |migrate|
    ensures forall i :: 0 <= i < |r| ==> r[i] == Migration(migrate[i].shard, Decode(migrate[i].slots))
  {
    seq(|migrate|, i requires 0 <= i < |migrate| =>
      Migration(migrate[i].shard, Decode(migrate[i].slots)))
  }

  function LoadNode(pod: Pod, e: Entry): (n: Node) {
    Node(pod.ip, e.role, pod.ordinal, Decode(e.slots), e.nodeId, e.masterId, e.failover,
         LoadMigrations(e.migrate))
  }

  // The entries of a partition go to the pods in order of position; pods beyond
  // the last entry stay blank.
  function LoadShard(entries: seq<Entry>, pods: seq<Pod>): (r: seq<Node>)
    requires |entries| <= |pods|
    ensures |r| == |pods|
    ensures forall j :: 0 <= j < |r| ==>
      r[j] == if j < |entries| then LoadNode(pods[j], entries[j]) else Blank(pods[j])
  {
    seq(|pods|, j requires 0 <= j < |pods| =>
      if j < |entries| then LoadNode(pods[j], entries[j]) else Blank(pods[j]))
  }

  // Every entry has a pod at its position; otherwise the load indexes out of range.
  predicate Fits(topo: seq<Partition>, pods: seq<seq<Pod>>) {
    forall i :: 0 <= i < |topo| ==> |topo[i].topology| <= if i < |pods| then |pods[i]| else 0
  }

  function Load(topo: seq<Partition>, pods: seq<seq<Pod>>): (r: seq<seq<Node>>)
    requires Fits(topo, pods)
    ensures |r| == |pods|
    ensures forall i :: 0 <= i < |r| ==>
      r[i] == LoadShard(if i < |topo| then topo[i].topology else [], pods[i])
  {
    seq(|pods|, i requires 0 <= i < |pods| =>
      LoadShard(if i < |topo| then topo[i].topology else [], pods[i]))
  }

  method LoadMigrationMessages(saved: seq<SavedMigration>) returns (migrate: seq<Migration>)
    ensures migrate == LoadMigrations(saved)
  {
    migrate := [];
    for m := 0 to |saved|
      invariant migrate == LoadMigrations(saved)[..m]
    {
      PrefixNext(LoadMigrations(saved), m);
      migrate := migrate + [Migration(saved[m].shard, Decode(saved[m].slots))];
    }
  }

  // The inner load loop: the entries of one partition onto its pods.
  method LoadShardMessages(entries: seq<Entry>, pods: seq<Pod>) returns (shard: seq<Node>)
    requires |entries| <= |pods|
    ensures shard == LoadShard(entries, pods)
  {
    shard := LoadShard([], pods);
    for j := 0 to |entries|
      invariant shard == LoadShard(entries[..j], pods)
    {
      var e := entries[j];
      var migrate := LoadMigrationMessages(e.migrate);
      shard := shard[j := shard[j].(nodeId := e.nodeId, role := e.role, master := e.masterId,
                                    slots := Decode(e.slots), failover := e.failover, migrate := migrate)];
    }
    assert entries[..|entries|] == entries;
  }

  // The load loop of ensureKubernetes. It fails (index out of range) exactly when
  // some entry has no pod at its position.
  method LoadTopology(topo: seq<Partition>, pods: seq<seq<Pod>>) returns (r: Option<seq<seq<Node>>>)
    ensures r.Some? <==> Fits(topo, pods)
    ensures r.Some? ==> r.value == Load(topo, pods)
  {
    var nodes: seq<seq<Node>> := seq(|pods|, i requires 0 <= i < |pods| => LoadShard([], pods[i]));
    for i := 0 to |topo|
      invariant |nodes| == |pods|
      invariant forall k :: 0 <= k < i ==> |topo[k].topology| <= if k < |pods| then |pods[k]| else 0
      invariant forall k :: 0 <= k < |pods| ==>
        nodes[k] == LoadShard(if k < i && k < |topo| then topo[k].topology else [], pods[k])
    {
      if i >= |pods| {
        if |topo[i].topology| > 0 {
          return None;
        }
      } else if |topo[i].topology| > |pods[i]| {
        return None;
      } else {
        var shard := LoadShardMessages(topo[i].topology, pods[i]);
        nodes := nodes[i := shard];
      }
    }
    assert nodes == Load(topo, pods);
    return Some(nodes);
  }

  // ----- save, then load -----

  // What a saved node comes back as on the pod that takes its position.
  function Restored(n: Node, pod: Pod): (r: Node) {
    SortedNode(n).(ip := pod.ip, podIndex := pod.ordinal, failover := false)
  }

  predicate Printable(n: Node) {
    && NonNegative(n.slots)
    && forall i :: 0 <= i < |n.migrate| ==> NonNegative(n.migrate[i].slots)
  }

  lemma {:induction false} LoadSavedNode(e: Entry, n: Node, pod: Pod)
    requires Printable(n) && Saves(e, n)
    ensures LoadNode(pod, e) == Restored(n, pod)
  {
    RoundTrip(n.slots);
    forall i | 0 <= i < |n.migrate|
      ensures LoadMigrations(SaveMigrations(n.migrate))[i] == SortedMigrations(n.migrate)[i]
    {
      RoundTrip(n.migrate[i].slots);
    }
  }

  // The nodes of a list that are not nil, in order.
  function Compact(nodes: seq<Option<Node>>): (r: seq<Node>)
    ensures |r| <= |nodes|
  {
    if nodes == [] then []
    else
      var j := |nodes| - 1;
      Compact(nodes[..j]) + if nodes[j].Some? then [nodes[j].value] else []
  }

  lemma {:induction false} CompactSnoc(nodes: seq<Option<Node>>, j: nat)
    requires j < |nodes|
    ensures Compact(nodes[..j + 1]) == Compact(nodes[..j]) + if nodes[j].Some? then [nodes[j].value] else []
  {
    assert nodes[..j + 1][..j] == nodes[..j];
  }

  ghost predicate NodesPrintable(nodes: seq<Option<Node>>) {
    forall j :: 0 <= j < |nodes| && nodes[j].Some? ==> Printable(nodes[j].value)
  }

  // An entry that saves a node, under whatever pod name.
  predicate Saves(e: Entry, n: Node) {
    e == SaveNode("", 0, n).(pod := e.pod)
  }

  // Entry k of a saved shard is the k-th node that is not nil, saved.
  lemma {:induction false} SavedEntries(name: string, nodes: seq<Option<Node>>, n: nat)
    requires n <= |nodes|
    ensures |SaveShard(name, nodes[..n])| == |Compact(nodes[..n])|
    ensures forall k :: 0 <= k < |Compact(nodes[..n])| ==>
      Saves(SaveShard(name, nodes[..n])[k], Compact(nodes[..n])[k])
    ensures forall k :: 0 <= k < |Compact(nodes[..n])| ==> Some(Compact(nodes[..n])[k]) in nodes
  {
    if n > 0 {
      SavedEntries(name, nodes, n - 1);
      SaveShardSnoc(name, nodes, n - 1);
      CompactSnoc(nodes, n - 1);
    }
  }

  // Saving a shard with holes and loading it on as many pods as nodes are left
  // gives the k-th remaining node to the k-th pod.
  lemma {:induction false} SaveLoadShard(name: string, nodes: seq<Option<Node>>, pods: seq<Pod>)
    requires NodesPrintable(nodes) && |pods| == |Compact(nodes)|
    ensures |SaveShard(name, nodes)| == |Compact(nodes)|
    ensures forall k :: 0 <= k < |pods| ==>
      LoadShard(SaveShard(name, nodes), pods)[k] == Restored(Compact(nodes)[k], pods[k])
  {
    SavedEntries(name, nodes, |nodes|);
    assert nodes[..|nodes|] == nodes;
    var saved, kept := SaveShard(name, nodes), Compact(nodes);
    forall k | 0 <= k < |pods|
      ensures LoadNode(pods[k], saved[k]) == Restored(kept[k], pods[k])
    {
      var i :| 0 <= i < |nodes| && nodes[i] == Some(kept[k]);
      LoadSavedNode(saved[k], kept[k], pods[k]);
    }
  }

  function Present(nodes: seq<Node>): (r: seq<Option<Node>>)
    ensures |r| == |nodes| && forall j :: 0 <= j < |r| ==> r[j] == Some(nodes[j])
  {
    seq(|nodes|, j requires 0 <= j < |nodes| => Some(nodes[j]))
  }

  function PresentAll(sts: seq<seq<Node>>): (r: seq<seq<Option<Node>>>)
    ensures |r| == |sts| && forall i :: 0 <= i < |r| ==> r[i] == Present(sts[i])
  {
    seq(|sts|, i requires 0 <= i < |sts| => Present(sts[i]))
  }

  lemma {:induction false} CompactPresent(nodes: seq<Node>)
    ensures Compact(Present(nodes)) == nodes
  {
    if nodes != [] {
      var j := |nodes| - 1;
      CompactPresent(nodes[..j]);
      assert Present(nodes)[..j] == Present(nodes[..j]);
      assert nodes == nodes[..j] + [nodes[j]];
    }
  }

  predicate NoNilShard(sts: seq<seq<Option<Node>>>) {
    forall i :: 0 <= i < |sts| ==> sts[i] != []
  }

  // Partition i of a saved topology is shard i when no shard is nil.
  lemma {:induction false} SavedPartitionTo(instance: string, sts: seq<seq<Option<Node>>>, n: nat, i: nat)
    requires NoNilShard(sts) && i < n <= |sts|
    ensures |Save(instance, sts[..n])| == n
    ensures Save(instance, sts[..n])[i] == SavePartition(instance, i, sts[i])
  {
    SaveSnoc(instance, sts, n - 1);
    assert sts[n - 1] != [];
    if n > 1 {
      SavedPartitionTo(instance, sts, n - 1, if i < n - 1 then i else 0);
    } else {
      assert sts[..0] == [];
    }
  }

  lemma {:induction false} SavedPartition(instance: string, sts: seq<seq<Option<Node>>>, i: nat)
    requires NoNilShard(sts) && i < |sts|
    ensures |Save(instance, sts)| == |sts|
    ensures Save(instance, sts)[i] == SavePartition(instance, i, sts[i])
  {
    SavedPartitionTo(instance, sts, |sts|, i);
    assert sts[..|sts|] == sts;
  }

  // Where node j of a shard is saved.
  lemma {:induction false} EntryOfNode(name: string, nodes: seq<Option<Node>>, j: nat)
    requires j < |nodes| && nodes[j].Some?
    ensures |Compact(nodes[..j])| < |SaveShard(name, nodes)|
    ensures SaveShard(name, nodes)[|Compact(nodes[..j])|] == SaveNode(name, j, nodes[j].value)
  {
    SavedEntries(name, nodes, j);
    SaveShardSnoc(name, nodes, j);
    SaveShardGrows(name, nodes, j + 1, |nodes|);
    assert nodes[..|nodes|] == nodes;
  }

  lemma {:induction false} SaveShardGrows(name: string, nodes: seq<Option<Node>>, j: nat, n: nat)
    requires j <= n <= |nodes|
    ensures SaveShard(name, nodes[..j]) <= SaveShard(name, nodes[..n])
  {
    if j < n {
      SaveShardGrows(name, nodes, j, n - 1);
      SaveShardSnoc(name, nodes, n - 1);
    }
  }

  // Partition i is named and numbered after StatefulSet i; its entries are named after
  // the positions of the nodes and hold their address, role, id and master, no flag.
  lemma {:induction false} SavedNames(instance: string, sts: seq<seq<Option<Node>>>, i: nat, j: nat)
    requires NoNilShard(sts) && i < |sts| && j < |sts[i]| && sts[i][j].Some?
    ensures |Save(instance, sts)| == |sts|
    ensures var p, k := Save(instance, sts)[i], |Compact(sts[i][..j])|;
            && p.name == instance + "-" + Itoa(i) && p.shard == i
            && k < |p.topology| && p.topology[k].pod == instance + "-" + Itoa(i) + "-" + Itoa(j)
            && var e, n := p.topology[k], sts[i][j].value;
               && e.ip == n.ip && e.role == n.role && e.nodeId == n.nodeId && e.masterId == n.master
               && !e.failover
  {
    SavedPartition(instance, sts, i);
    EntryOfNode(StatefulSetName(instance, i), sts[i], j);
  }

  // A pod without an entry is loaded with its address and ordinal and nothing else: no
  // role, id, master, slots or migrations, and not flagged.
  lemma {:induction false} UnlistedPod(topo: seq<Partition>, pods: seq<seq<Pod>>, i: nat, j: nat)
    requires Fits(topo, pods) && i < |pods| && j < |pods[i]| && (i < |topo| ==> |topo[i].topology| <= j)
    ensures Load(topo, pods)[i][j] == Node(pods[i][j].ip, "", pods[i][j].ordinal, [], "", "", false, [])
  {
  }

  // Saving a topology and loading it on the same numbers of pods restores role,
  // node id, master, slots (sorted) and migrations of every node. Only the
  // Failover flag is gone, so nothing is lost when no node is flagged.
  lemma {:induction false} SaveLoad(instance: string, sts: seq<seq<Node>>, pods: seq<seq<Pod>>)
    requires |pods| == |sts|
    requires forall i :: 0 <= i < |sts| ==> sts[i] != [] && |pods[i]| == |sts[i]|
    requires forall i, j :: 0 <= i < |sts| && 0 <= j < |sts[i]| ==> Printable(sts[i][j])
    ensures var topo := Save(instance, PresentAll(sts));
            && Fits(topo, pods)
            && forall i, j :: 0 <= i < |sts| && 0 <= j < |sts[i]| ==>
                 Load(topo, pods)[i][j] == Restored(sts[i][j], pods[i][j])
  {
    var topo := Save(instance, PresentAll(sts));
    if sts != [] {
      SavedPartition(instance, PresentAll(sts), 0);
    }
    forall i | 0 <= i < |sts|
      ensures |topo[i].topology| == |pods[i]|
      ensures forall j :: 0 <= j < |sts[i]| ==>
        LoadShard(topo[i].topology, pods[i])[j] == Restored(sts[i][j], pods[i][j])
    {
      SavedPartition(instance, PresentAll(sts), i);
      CompactPresent(sts[i]);
      SaveLoadShard(StatefulSetName(instance, i), Present(sts[i]), pods[i]);
    }
  }
}
