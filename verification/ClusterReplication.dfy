// ensureReplication: the operator's own view of who is master in each shard, before
// the controller's is taken over.
module ClusterReplication {
  import opened Text
  import opened Topology
  import opened StatusProtocol

  // ----- one shard -----

  // The position of the first master, -1 when there is none.
  function FirstMasterAt(nodes: seq<Node>): (p: int)
    ensures -1 <= p < |nodes| && (p >= 0 ==> nodes[p].role == MASTER)
    ensures forall j :: 0 <= j < |nodes| && (p < 0 || j < p) ==> nodes[j].role != MASTER
  {
    if nodes == [] then -1
    else if nodes[0].role == MASTER then 0
    else
      var p := FirstMasterAt(nodes[1..]);
      assert forall j :: 1 <= j < |nodes| ==> nodes[j] == nodes[1..][j - 1];
      if p < 0 then -1 else p + 1
  }

  // The node the others are told to follow: the first master, or the first node
  // when there is no master or it has no id yet.
  function Chosen(nodes: seq<Node>): (c: int)
    requires nodes != []
    ensures 0 <= c < |nodes|
  {
    var p := FirstMasterAt(nodes);
    if p >= 0 && nodes[p].nodeId != "" then p else 0
  }

  // One turn of the second loop.
  function Follow(n: Node, id: string): (r: Node) {
    if n.nodeId != id && n.master != id then n.(master := id, role := SLAVE) else n
  }

  function Replicated(nodes: seq<Node>): (r: seq<Node>)
    requires nodes != []
    ensures |r| == |nodes|
    ensures forall j :: 0 <= j < |r| ==>
      r[j] == Follow(if j == Chosen(nodes) then nodes[j].(role := MASTER) else nodes[j], nodes[Chosen(nodes)].nodeId)
  {
    var c := Chosen(nodes);
    seq(|nodes|, j requires 0 <= j < |nodes| =>
      Follow(if j == c then nodes[j].(role := MASTER) else nodes[j], nodes[c].nodeId))
  }

  // A shard without pods makes the code index out of range; labelling a pod may fail.
  datatype Outcome = Replicates(nodes: seq<Node>) | LabelFailed | IndexOutOfRange

  method FindMasterID(nodes: seq<Node>) returns (id: string)
    ensures var p := FirstMasterAt(nodes); id == if p >= 0 then nodes[p].nodeId else ""
  {
    id := "";
    for j := 0 to |nodes|
      invariant id == "" && forall i :: 0 <= i < j ==> nodes[i].role != MASTER
    {
      if nodes[j].role == MASTER {
        id := nodes[j].nodeId;
        break;
      }
    }
  }

  method ReplicateShard(list: seq<Node>) returns (r: Outcome)
    ensures r == IndexOutOfRange <==> list == []
    ensures r.Replicates? ==> list != [] && r.nodes == Replicated(list)
  {
    var id := FindMasterID(list);
    var nodes := list;
    if id == "" {
      if |nodes| == 0 {
        return IndexOutOfRange;
      }
      nodes := nodes[0 := nodes[0].(role := MASTER)];
      id := nodes[0].nodeId;
    }
    ghost var start := nodes;
    assert list != [] && id == list[Chosen(list)].nodeId;
    for j := 0 to |nodes|
      invariant |nodes| == |start|
      invariant forall i :: 0 <= i < |nodes| ==> nodes[i] == if i < j then Follow(start[i], id) else start[i]
    {
      if nodes[j].nodeId != id && nodes[j].master != id {
        nodes := nodes[j := nodes[j].(master := id, role := SLAVE)];
      }
      var fails := *;
      if fails {
        return LabelFailed;
      }
    }
    assert nodes == Replicated(list);
    return Replicates(nodes);
  }

  // ensureReplication over all shards; None when it does not complete.
  method EnsureReplication(sts: seq<seq<Node>>) returns (r: Option<seq<seq<Node>>>)
    ensures r.Some? ==>
      && NoEmptyShard(sts) && |r.value| == |sts|
      && forall i :: 0 <= i < |sts| ==> r.value[i] == Replicated(sts[i])
  {
    var all: seq<seq<Node>> := [];
    for i := 0 to |sts|
      invariant |all| == i && forall k :: 0 <= k < i ==> sts[k] != [] && all[k] == Replicated(sts[k])
    {
      var shard := ReplicateShard(sts[i]);
      if !shard.Replicates? {
        return None;
      }
      all := all + [shard.nodes];
    }
    r := Some(all);
  }

  // ----- who ends as master -----

  // A node other than the chosen one that keeps the role of master: it has it, and
  // it shares the chosen node's id or already names it as its own master.
  predicate Rival(nodes: seq<Node>, j: int)
    requires nodes != []
  {
    var c := Chosen(nodes);
    && 0 <= j < |nodes| && j != c && nodes[j].role == MASTER
    && (nodes[j].nodeId == nodes[c].nodeId || nodes[j].master == nodes[c].nodeId)
  }

  lemma {:induction false} EndsAsMasterIff(nodes: seq<Node>, j: nat)
    requires nodes != [] && j < |nodes|
    ensures Replicated(nodes)[j].role == MASTER <==> j == Chosen(nodes) || Rival(nodes, j)
  {
  }

  // Exactly one node of the shard ends as master if and only if the chosen node has
  // no rival.
  lemma {:induction false} OneMasterIff(nodes: seq<Node>)
    requires nodes != []
    ensures (exists m :: OnlyMasterIs(Replicated(nodes), m)) <==> forall j :: !Rival(nodes, j)
    ensures Replicated(nodes)[Chosen(nodes)].role == MASTER
  {
    var c, after := Chosen(nodes), Replicated(nodes);
    EndsAsMasterIff(nodes, c);
    if forall j :: !Rival(nodes, j) {
      forall j | 0 <= j < |after|
        ensures after[j].role == MASTER <==> j == c
      {
        EndsAsMasterIff(nodes, j);
      }
      assert OnlyMasterIs(after, c);
    }
    if m :| OnlyMasterIs(after, m) {
      forall j | 0 <= j < |nodes|
        ensures !Rival(nodes, j)
      {
        EndsAsMasterIff(nodes, j);
      }
    }
  }

  // The first master of a shard, when it has an id, stays as it is. Every node with
  // another id ends naming it, and none of them as master unless it was one already
  // recorded as its replica; with a single master there is none.
  lemma {:induction false} FirstMasterLeads(nodes: seq<Node>, m: nat)
    requires m < |nodes| && nodes[m].role == MASTER && nodes[m].nodeId != ""
    requires forall j :: 0 <= j < m ==> nodes[j].role != MASTER
    ensures var after, id := Replicated(nodes), nodes[m].nodeId;
            && after[m] == nodes[m]
            && forall j :: 0 <= j < |nodes| && nodes[j].nodeId != id ==>
                 && after[j] == nodes[j].(role := after[j].role, master := id)
                 && (after[j].role == MASTER <==> nodes[j].role == MASTER && nodes[j].master == id)
                 && (nodes[j].master != id ==> after[j].role == SLAVE)
  {
    assert FirstMasterAt(nodes) == m;
  }

  // Without a master, or when the first one has no id yet, the first node becomes
  // master and every node with another id ends naming it.
  lemma {:induction false} FirstNodePromoted(nodes: seq<Node>)
    requires nodes != []
    requires forall j :: 0 <= j < |nodes| && nodes[j].role == MASTER ==>
      nodes[j].nodeId == "" || exists i :: 0 <= i < j && nodes[i].role == MASTER
    ensures var after, id := Replicated(nodes), nodes[0].nodeId;
            && after[0] == nodes[0].(role := MASTER)
            && forall j :: 0 <= j < |nodes| && nodes[j].nodeId != id ==> after[j].master == id
  {
    assert Chosen(nodes) == 0;
  }

  predicate OnlyMasterIs(nodes: seq<Node>, m: int) {
    0 <= m < |nodes| && forall j :: 0 <= j < |nodes| ==> (nodes[j].role == MASTER <==> j == m)
  }

  // Two masters, the second recorded as a replica of the first: both stay masters.
  lemma {:induction false} RivalStays(a: Node, b: Node)
    requires a.role == b.role == MASTER && a.nodeId == "a" && b.nodeId == "b" && b.master == "a"
    ensures var after := Replicated([a, b]); after[0].role == MASTER && after[1].role == MASTER
  {
    var nodes := [a, b];
    assert nodes[0] == a && nodes[1] == b;
    assert FirstMasterAt(nodes) == 0;
    assert Rival(nodes, 1);
    EndsAsMasterIff(nodes, 0);
    EndsAsMasterIff(nodes, 1);
  }

  // Every node that the pass touches follows the chosen one, and apart from roles
  // and masters nothing changes: it is a step the protocol of the shared object allows.
  lemma {:induction false} ReplicatedSamePods(sts: seq<seq<Node>>, after: seq<seq<Node>>)
    requires NoEmptyShard(sts) && |after| == |sts|
    requires forall i :: 0 <= i < |sts| ==> after[i] == Replicated(sts[i])
    ensures SamePods(sts, after) && NoEmptyShard(after)
  {
    forall i | 0 <= i < |sts|
      ensures after[i] != [] && |after[i]| == |sts[i]|
      ensures forall j :: 0 <= j < |sts[i]| ==>
        sts[i][j].ip == after[i][j].ip && sts[i][j].failover == after[i][j].failover
    {
      assert |Replicated(sts[i])| == |sts[i]|;
    }
  }
}
