// Failover of a cluster node: how handleFailover merges the controller's view of
// a shard into the persisted topology, and how ensureFailover clears the flags.
module FailoverMerge {
  import opened Text
  import opened Topology

  // A node as kvrocks-controller reports it.
  datatype ShardNode = ShardNode(id: string, addr: string, role: string)

  predicate UniqueIds(nodes: seq<ShardNode>) {
    forall i, j :: 0 <= i < j < |nodes| ==> nodes[i].id != nodes[j].id
  }

  // ----- the new master -----

  // The id of the first master listed, "" when there is none.
  function FirstMaster(nodes: seq<ShardNode>): (id: string) {
    if nodes == [] then ""
    else if nodes[0].role == MASTER then nodes[0].id
    else FirstMaster(nodes[1..])
  }

  method FindMaster(nodes: seq<ShardNode>) returns (masterID: string)
    ensures masterID == FirstMaster(nodes)
  {
    masterID := "";
    for k := 0 to |nodes|
      invariant masterID == "" && FirstMaster(nodes) == FirstMaster(nodes[k..])
    {
      if nodes[k].role == MASTER {
        masterID := nodes[k].id;
        break;
      }
    }
  }

  predicate FirstMasterIsAt(nodes: seq<ShardNode>, m: nat) {
    m < |nodes| && nodes[m].role == MASTER && forall k :: 0 <= k < m ==> nodes[k].role != MASTER
  }

  // The id of the first master, whatever follows it, and nothing without a master.
  lemma {:induction false} FirstMasterFound(nodes: seq<ShardNode>, m: nat)
    requires FirstMasterIsAt(nodes, m)
    ensures FirstMaster(nodes) == nodes[m].id
  {
    if m > 0 {
      assert nodes[0].role != MASTER;
      FirstMasterFound(nodes[1..], m - 1);
    }
  }

  lemma {:induction false} NoMasterFound(nodes: seq<ShardNode>)
    requires forall k :: 0 <= k < |nodes| ==> nodes[k].role != MASTER
    ensures FirstMaster(nodes) == ""
  {
    if nodes != [] {
      NoMasterFound(nodes[1..]);
    }
  }

  // Exactly one node of the shard is the master.
  predicate OneMaster(nodes: seq<ShardNode>, m: nat) {
    m < |nodes| && forall i :: 0 <= i < |nodes| ==> (nodes[i].role == MASTER <==> i == m)
  }

  lemma {:induction false} FirstMasterIs(nodes: seq<ShardNode>, m: nat)
    requires OneMaster(nodes, m)
    ensures FirstMaster(nodes) == nodes[m].id
  {
    if m > 0 {
      FirstMasterIs(nodes[1..], m - 1);
    }
  }

  // ----- the merge -----

  // One turn of the inner loop: entry `e` meets controller node `node`.
  function Meet(e: Entry, node: ShardNode, masterID: string, failedIp: string): (r: Entry) {
    var e1 := if e.nodeId == node.id
              then e.(failover := false, role := node.role,
                      masterId := if node.role == SLAVE then masterID else e.masterId)
              else e;
    if e.ip == failedIp then e1.(failover := true) else e1
  }

  function MergeEntry(e: Entry, nodes: seq<ShardNode>, masterID: string, failedIp: string): (r: Entry)
    decreases |nodes|
  {
    if nodes == [] then e
    else
      var k := |nodes| - 1;
      Meet(MergeEntry(e, nodes[..k], masterID, failedIp), nodes[k], masterID, failedIp)
  }

  function Merge(entries: seq<Entry>, nodes: seq<ShardNode>, masterID: string, failedIp: string): (r: seq<Entry>)
    ensures |r| == |entries|
    ensures forall i :: 0 <= i < |r| ==> r[i] == MergeEntry(entries[i], nodes, masterID, failedIp)
  {
    seq(|entries|, i requires 0 <= i < |entries| => MergeEntry(entries[i], nodes, masterID, failedIp))
  }

  // The nested loop, on the topology of one partition in place. `topo` is the
  // entry as it was when its turn began.
  method MergeTopology(topology: array<Entry>, nodes: seq<ShardNode>, masterID: string, failedIp: string)
    modifies topology
    ensures topology[..] == Merge(old(topology[..]), nodes, masterID, failedIp)
  {
    for index := 0 to topology.Length
      invariant forall i :: 0 <= i < index ==> topology[i] == MergeEntry(old(topology[i]), nodes, masterID, failedIp)
      invariant forall i :: index <= i < topology.Length ==> topology[i] == old(topology[i])
    {
      var topo := topology[index];
      for k := 0 to |nodes|
        invariant topology[index] == MergeEntry(topo, nodes[..k], masterID, failedIp)
        invariant topology[index].nodeId == topo.nodeId && topology[index].ip == topo.ip
        invariant forall i :: 0 <= i < topology.Length && i != index ==>
          topology[i] == if i < index then MergeEntry(old(topology[i]), nodes, masterID, failedIp) else old(topology[i])
      {
        var node := nodes[k];
        assert nodes[..k + 1][..k] == nodes[..k];
        if topo.nodeId == node.id {
          topology[index] := topology[index].(failover := false);
          topology[index] := topology[index].(role := node.role);
          if node.role == SLAVE {
            topology[index] := topology[index].(masterId := masterID);
          }
        }
        if topo.ip == failedIp {
          topology[index] := topology[index].(failover := true);
        }
      }
      assert nodes[..|nodes|] == nodes;
    }
  }

  // The controller's node for an entry.
  function Match(e: Entry, nodes: seq<ShardNode>): (r: Option<ShardNode>)
    ensures r.Some? ==> r.value in nodes && r.value.id == e.nodeId
    ensures r == None ==> forall i :: 0 <= i < |nodes| ==> nodes[i].id != e.nodeId
  {
    if nodes == [] then None
    else
      var k := |nodes| - 1;
      if nodes[k].id == e.nodeId then Some(nodes[k]) else Match(e, nodes[..k])
  }

  // What an entry becomes, said field by field. `seen` is whether the shard
  // listed any node at all.
  function Updated(e: Entry, m: Option<ShardNode>, seen: bool, masterID: string, failedIp: string): (r: Entry) {
    e.(failover := if seen && e.ip == failedIp then true else if m.Some? then false else e.failover,
       role := if m.Some? then m.value.role else e.role,
       masterId := if m.Some? && m.value.role == SLAVE then masterID else e.masterId)
  }

  // Whatever the order of the controller's nodes: the entry with the failed
  // address ends flagged, every other matched entry ends unflagged, matched
  // entries take the controller's role, matched slaves point at the new master,
  // and everything else stays.
  lemma {:induction false} MergeEntryIs(e: Entry, nodes: seq<ShardNode>, masterID: string, failedIp: string)
    requires UniqueIds(nodes)
    ensures MergeEntry(e, nodes, masterID, failedIp) == Updated(e, Match(e, nodes), nodes != [], masterID, failedIp)
  {
    if nodes != [] {
      var k := |nodes| - 1;
      MergeEntryIs(e, nodes[..k], masterID, failedIp);
      if nodes[k].id == e.nodeId {
        assert Match(e, nodes[..k]) == None by {
          assert forall i :: 0 <= i < k ==> nodes[..k][i] == nodes[i];
        }
      }
    }
  }

  predicate UniqueEntries(entries: seq<Entry>) {
    forall i, j :: 0 <= i < j < |entries| ==> entries[i].nodeId != entries[j].nodeId
  }

  predicate AllMatch(entries: seq<Entry>, nodes: seq<ShardNode>) {
    forall i :: 0 <= i < |entries| ==> Match(entries[i], nodes).Some?
  }

  predicate HasEntry(entries: seq<Entry>, id: string) {
    exists i :: 0 <= i < |entries| && entries[i].nodeId == id
  }

  // How many entries have the role master.
  function MasterCount(entries: seq<Entry>): (n: nat)
    ensures n <= |entries|
  {
    if entries == [] then 0
    else MasterCount(entries[..|entries| - 1]) + if entries[|entries| - 1].role == MASTER then 1 else 0
  }

  lemma {:induction false} CountById(entries: seq<Entry>, id: string)
    requires UniqueEntries(entries)
    requires forall i :: 0 <= i < |entries| ==> (entries[i].role == MASTER <==> entries[i].nodeId == id)
    ensures MasterCount(entries) == if HasEntry(entries, id) then 1 else 0
  {
    if entries != [] {
      var n := |entries| - 1;
      CountById(entries[..n], id);
      if HasEntry(entries[..n], id) {
        var i :| 0 <= i < n && entries[..n][i].nodeId == id;
        assert entries[i].nodeId == id;
      }
      if HasEntry(entries, id) && entries[n].nodeId != id {
        var i :| 0 <= i < |entries| && entries[i].nodeId == id;
        assert entries[..n][i].nodeId == id;
      }
    }
  }

  // When every entry is known to the controller, the merged partition has exactly
  // one master if and only if the new master has an entry.
  lemma {:induction false} MergedMasters(entries: seq<Entry>, nodes: seq<ShardNode>, m: nat, failedIp: string)
    requires UniqueIds(nodes) && OneMaster(nodes, m) && UniqueEntries(entries) && AllMatch(entries, nodes)
    ensures MasterCount(Merge(entries, nodes, FirstMaster(nodes), failedIp))
         == if HasEntry(entries, FirstMaster(nodes)) then 1 else 0
  {
    var masterID := FirstMaster(nodes);
    var merged := Merge(entries, nodes, masterID, failedIp);
    FirstMasterIs(nodes, m);
    forall i | 0 <= i < |entries|
      ensures merged[i].nodeId == entries[i].nodeId
      ensures merged[i].role == MASTER <==> merged[i].nodeId == masterID
    {
      MergeEntryIs(entries[i], nodes, masterID, failedIp);
      var node := Match(entries[i], nodes).value;
      var j :| 0 <= j < |nodes| && nodes[j] == node;
      assert node.id == masterID ==> j == m;
    }
    CountById(merged, masterID);
    assert HasEntry(merged, masterID) <==> HasEntry(entries, masterID);
  }

  // A controller that lists more nodes than the topology can leave it masterless.
  lemma {:induction false} MasterWithoutEntry()
    ensures var e := Entry("p", MASTER, "a", "10.0.0.1", [], "", [], false);
            var nodes := [ShardNode("a", "10.0.0.1:6379", SLAVE), ShardNode("b", "10.0.0.9:6379", MASTER)];
            && AllMatch([e], nodes)
            && MasterCount(Merge([e], nodes, "b", "10.0.0.1")) == 0
  {
    var e := Entry("p", MASTER, "a", "10.0.0.1", [], "", [], false);
    var nodes := [ShardNode("a", "10.0.0.1:6379", SLAVE), ShardNode("b", "10.0.0.9:6379", MASTER)];
    assert nodes[1].role == MASTER && nodes[0].role == SLAVE;
    assert OneMaster(nodes, 1);
    assert FirstMaster(nodes) == FirstMaster(nodes[1..]) == "b";
    assert nodes[..1] == [nodes[0]];
    assert Match(e, nodes) == Match(e, nodes[..1]) == Some(nodes[0]);
    MergedMasters([e], nodes, 1, "10.0.0.1");
    assert [e][0].nodeId == "a";
  }

  // ----- clearing the flags -----

  function Unflag(nodes: seq<Node>): (r: seq<Node>)
    ensures |r| == |nodes| && forall j :: 0 <= j < |r| ==> r[j] == nodes[j].(failover := false)
  {
    seq(|nodes|, j requires 0 <= j < |nodes| => nodes[j].(failover := false))
  }

  predicate Flagged(nodes: seq<Node>) {
    exists j :: 0 <= j < |nodes| && nodes[j].failover
  }

  predicate Silent(nodes: seq<Node>, silent: set<string>) {
    exists j :: 0 <= j < |nodes| && !nodes[j].failover && nodes[j].ip in silent
  }

  // Addresses reported to the failover queue: unflagged nodes that do not answer.
  function Reported(nodes: seq<Node>, silent: set<string>): (r: set<string>) {
    set j | 0 <= j < |nodes| && !nodes[j].failover && nodes[j].ip in silent :: nodes[j].ip
  }

  // Pods deleted: flagged nodes that do not answer, named by their position.
  function Deleted(instance: string, shard: int, nodes: seq<Node>, silent: set<string>): (r: set<string>) {
    set j | 0 <= j < |nodes| && nodes[j].failover && nodes[j].ip in silent :: PodName(instance, shard, j)
  }

  // All of these, one node further.
  lemma {:induction false} SeenOneMore(list: seq<Node>, silent: set<string>, k: nat)
    requires k < |list|
    ensures var a, b, x := list[..k], list[..k + 1], list[k];
            && Flagged(b) == (Flagged(a) || x.failover)
            && Silent(b, silent) == (Silent(a, silent) || (!x.failover && x.ip in silent))
  {
    var a, b := list[..k], list[..k + 1];
    assert b[k] == list[k];
    assert forall i :: 0 <= i < k ==> a[i] == b[i];
  }

  lemma {:induction false} ReportedOneMore(list: seq<Node>, silent: set<string>, k: nat)
    requires k < |list|
    ensures var x := list[k];
            Reported(list[..k + 1], silent)
            == Reported(list[..k], silent) + if !x.failover && x.ip in silent then {x.ip} else {}
  {
    var a, b := list[..k], list[..k + 1];
    assert b[k] == list[k];
    assert forall i :: 0 <= i < k ==> a[i] == b[i];
  }

  lemma {:induction false} DeletedOneMore(instance: string, shard: int, list: seq<Node>, silent: set<string>, k: nat)
    requires k < |list|
    ensures var x := list[k];
            Deleted(instance, shard, list[..k + 1], silent)
            == Deleted(instance, shard, list[..k], silent)
               + if x.failover && x.ip in silent then {PodName(instance, shard, k)} else {}
  {
    var a, b, x := list[..k], list[..k + 1], list[k];
    var last := if x.failover && x.ip in silent then {PodName(instance, shard, k)} else {};
    forall pod | pod in Deleted(instance, shard, b, silent)
      ensures pod in Deleted(instance, shard, a, silent) + last
    {
      var j :| 0 <= j < |b| && b[j].failover && b[j].ip in silent && pod == PodName(instance, shard, j);
      assert b[j] == if j < k then a[j] else x;
    }
    DeletedStays(instance, shard, list, silent, k);
    assert b[k] == x;
  }

  lemma {:induction false} DeletedStays(instance: string, shard: int, list: seq<Node>, silent: set<string>, k: nat)
    requires k < |list|
    ensures Deleted(instance, shard, list[..k], silent) <= Deleted(instance, shard, list[..k + 1], silent)
  {
    var a, b := list[..k], list[..k + 1];
    forall pod | pod in Deleted(instance, shard, a, silent)
      ensures pod in Deleted(instance, shard, b, silent)
    {
      var j :| 0 <= j < |a| && a[j].failover && a[j].ip in silent && pod == PodName(instance, shard, j);
      assert b[j] == a[j];
    }
  }

  lemma {:induction false} UnflagOneMore(list: seq<Node>, k: nat)
    requires k < |list|
    ensures (Unflag(list[..k]) + list[k..])[k := list[k].(failover := false)] == Unflag(list[..k + 1]) + list[k + 1..]
    ensures !list[k].failover ==> Unflag(list[..k]) + list[k..] == Unflag(list[..k + 1]) + list[k + 1..]
    ensures (Unflag(list[..k]) + list[k..])[k] == list[k]
  {
  }

  // One node: clear its flag, deleting its claim and its pod first when it is silent.
  // Either deletion may fail; `claimed` is whether the claim was deleted.
  method FailoverNode(node: Node, down: bool) returns (ok: bool, after: Node, claimed: bool)
    ensures ok ==> after == node.(failover := false) && claimed == (node.failover && down)
    ensures !ok ==> node.failover && down
  {
    ok, after, claimed := true, node, false;
    if node.failover {
      if down {
        var claimFails, podFails := *, *;
        claimed := !claimFails;
        if claimFails || podFails {
          ok := false;
          return;
        }
      }
      after := node.(failover := false);
    }
  }

  // What a pass over a shard has done: the nodes, h.requeue, whether anything changed,
  // the addresses reported and the pods deleted.
  datatype Pass = Pass(nodes: seq<Node>, requeue: bool, change: bool, sent: set<string>, gone: set<string>)

  // One more node is dealt with.
  function Turn(p: Pass, pod: string, k: nat, node: Node, down: bool): (r: Pass)
    requires k < |p.nodes|
    ensures |r.nodes| == |p.nodes|
  {
    Pass(p.nodes[k := node.(failover := false)], p.requeue || node.failover || down, p.change || node.failover,
         if !node.failover && down then p.sent + {node.ip} else p.sent,
         if node.failover && down then p.gone + {pod} else p.gone)
  }

  // The first k nodes are dealt with.
  function PassTo(instance: string, shard: int, list: seq<Node>, silent: set<string>, k: nat): (p: Pass)
    requires k <= |list|
    ensures |p.nodes| == |list|
  {
    if k == 0 then Pass(list, false, false, {}, {})
    else Turn(PassTo(instance, shard, list, silent, k - 1), PodName(instance, shard, k - 1), k - 1, list[k - 1],
              list[k - 1].ip in silent)
  }

  // What that is: the flags of these nodes are cleared, the silent ones among them
  // that had none are reported, and those that had one are deleted.
  lemma {:induction false} PassIs(instance: string, shard: int, list: seq<Node>, silent: set<string>, k: nat)
    requires k <= |list|
    ensures var p, seen := PassTo(instance, shard, list, silent, k), list[..k];
            && p.nodes == Unflag(seen) + list[k..]
            && p.change == Flagged(seen) && p.requeue == (Flagged(seen) || Silent(seen, silent))
            && p.sent == Reported(seen, silent) && p.gone == Deleted(instance, shard, seen, silent)
  {
    if k == 0 {
      assert list[..0] == [] && Unflag([]) + list[0..] == list;
    } else {
      PassIs(instance, shard, list, silent, k - 1);
      PassNext(instance, shard, list, silent, k - 1);
    }
  }

  lemma {:induction false} PassNext(instance: string, shard: int, list: seq<Node>, silent: set<string>, k: nat)
    requires k < |list|
    requires var p, seen := PassTo(instance, shard, list, silent, k), list[..k];
             && p.nodes == Unflag(seen) + list[k..]
             && p.change == Flagged(seen) && p.requeue == (Flagged(seen) || Silent(seen, silent))
             && p.sent == Reported(seen, silent) && p.gone == Deleted(instance, shard, seen, silent)
    ensures var p, seen := PassTo(instance, shard, list, silent, k + 1), list[..k + 1];
            && p.nodes == Unflag(seen) + list[k + 1..]
            && p.change == Flagged(seen) && p.requeue == (Flagged(seen) || Silent(seen, silent))
            && p.sent == Reported(seen, silent) && p.gone == Deleted(instance, shard, seen, silent)
  {
    SeenOneMore(list, silent, k);
    ReportedOneMore(list, silent, k);
    DeletedOneMore(instance, shard, list, silent, k);
    UnflagOneMore(list, k);
  }

  // The inner loop of ensureFailover on one shard. `silent` are the addresses that do
  // not answer a ping; deleting a claim or the pod may fail, which ends the pass at
  // that node. `at` is how many nodes were dealt with, `claims` whose claims are gone.
  method FailoverShard(instance: string, shard: int, list: seq<Node>, silent: set<string>)
    returns (ok: bool, p: Pass, claims: set<string>, at: nat)
    ensures at <= |list| && p == PassTo(instance, shard, list, silent, at)
    ensures (ok <==> at == |list|) && (!ok ==> list[at].failover && list[at].ip in silent)
    ensures claims == p.gone || (!ok && claims == p.gone + {PodName(instance, shard, at)})
  {
    var nodes, requeue, change := list, false, false;
    var sent: set<string>, gone: set<string> := {}, {};
    at := 0;
    while at < |list|
      invariant at <= |list|
      invariant Pass(nodes, requeue, change, sent, gone) == PassTo(instance, shard, list, silent, at)
    {
      var node, pod := list[at], PodName(instance, shard, at);
      var down := node.ip in silent;
      var after, claimed;
      ok, after, claimed := FailoverNode(node, down);
      if !ok {
        claims := if claimed then gone + {pod} else gone;
        return false, Pass(nodes, requeue, change, sent, gone), claims, at;
      }
      nodes := nodes[at := after];
      if node.failover {
        requeue, change := true, true;
        if down {
          gone := gone + {pod};
        }
      } else if down {
        requeue := true;
        sent := sent + {node.ip};
      }
      at := at + 1;
    }
    return true, Pass(nodes, requeue, change, sent, gone), gone, at;
  }
}
