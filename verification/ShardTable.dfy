// kvrocks-controller's table of shards as the operator sees it through its HTTP
// client, and updateCluster, which makes it follow the pods.
module ShardTable {
  import opened Text
  import opened Topology
  import opened FailoverMerge

  datatype Shard = Shard(nodes: seq<ShardNode>, slotRanges: seq<string>)

  // The calls that change the table.
  datatype Call =
    | CreateShardCall(addrs: seq<string>)
    | DeleteNodeCall(shard: int, id: string)
    | AddNodeCall(shard: int, addr: string, role: string)
    | DeleteShardCall(shard: int)

  // ----- addresses -----

  function SimplyIp(addr: string): (ip: string)
    ensures ':' !in ip
  {
    Split(addr, ':')[0]
  }

  function Addr(ip: string): (addr: string) {
    ip + ":" + Itoa(6379)
  }

  lemma {:induction false} SimplyIpOfAddr(ip: string)
    ensures SimplyIp(Addr(ip)) == ip <==> ':' !in ip
  {
    if ':' !in ip {
      assert Addr(ip) == ip + [':'] + Itoa(6379);
      SplitField(ip, ':', Itoa(6379));
    }
  }

  // A pod's address names the port of the server.
  lemma {:induction false} ServerPort()
    ensures forall ip :: Addr(ip) == ip + ":6379"
  {
    assert Decimal(6) == "6" && Decimal(63) == "63" && Decimal(637) == "637";
    assert Itoa(6379) == "6379";
    forall ip
      ensures Addr(ip) == ip + ":6379"
    {
      assert ip + ":" + "6379" == ip + ":6379";
    }
  }

  function ShardIps(nodes: seq<ShardNode>): (r: set<string>) {
    set k | 0 <= k < |nodes| :: SimplyIp(nodes[k].addr)
  }

  function Addrs(nodes: seq<Node>): (r: seq<string>)
    ensures |r| == |nodes| && forall k :: 0 <= k < |r| ==> r[k] == Addr(nodes[k].ip)
  {
    seq(|nodes|, k requires 0 <= k < |nodes| => Addr(nodes[k].ip))
  }

  // ----- the controller -----

  function WithoutId(nodes: seq<ShardNode>, id: string): (r: seq<ShardNode>) {
    if nodes == [] then []
    else
      var n := |nodes| - 1;
      WithoutId(nodes[..n], id) + if nodes[n].id == id then [] else [nodes[n]]
  }

  datatype UpdateResult = Updated | Stopped | Crashed

  class Controller {
    var shards: seq<Shard>
    var log: seq<Call>

    // Each call is logged. It may fail, with or without having taken effect; the
    // controller picks ids and, for a new shard, roles.
    method CreateShard(addrs: seq<string>) returns (ok: bool)
      modifies this
      ensures log == old(log) + [CreateShardCall(addrs)]
      ensures ok ==>
        && |shards| == |old(shards)| + 1 && shards[..|old(shards)|] == old(shards)
        && |shards[|old(shards)|].nodes| == |addrs|
        && forall k :: 0 <= k < |addrs| ==> shards[|old(shards)|].nodes[k].addr == addrs[k]
    {
      log := log + [CreateShardCall(addrs)];
      var fails, lost := *, *;
      var nodes: seq<ShardNode> := *;
      if fails || |nodes| != |addrs| || exists k :: 0 <= k < |addrs| && nodes[k].addr != addrs[k] {
        return false;
      }
      shards := shards + [Shard(nodes, [])];
      return !lost;
    }

    method DeleteNode(shard: nat, id: string) returns (ok: bool)
      requires shard < |shards|
      modifies this
      ensures log == old(log) + [DeleteNodeCall(shard, id)]
      ensures ok ==>
        shards == old(shards)[shard := old(shards)[shard].(nodes := WithoutId(old(shards)[shard].nodes, id))]
    {
      log := log + [DeleteNodeCall(shard, id)];
      var fails, lost := *, *;
      if fails {
        return false;
      }
      shards := shards[shard := shards[shard].(nodes := WithoutId(shards[shard].nodes, id))];
      return !lost;
    }

    method AddNode(shard: nat, addr: string, role: string) returns (ok: bool)
      requires shard < |shards|
      modifies this
      ensures log == old(log) + [AddNodeCall(shard, addr, role)]
      ensures ok ==>
        && |shards| == |old(shards)| && (forall i :: 0 <= i < |shards| && i != shard ==> shards[i] == old(shards)[i])
        && Appended(old(shards)[shard], shards[shard], addr, role)
    {
      log := log + [AddNodeCall(shard, addr, role)];
      var fails, lost := *, *;
      var id: string := *;
      if fails {
        return false;
      }
      shards := shards[shard := shards[shard].(nodes := shards[shard].nodes + [ShardNode(id, addr, role)])];
      return !lost;
    }

    method DeleteShard(shard: nat) returns (ok: bool)
      requires shard < |shards|
      modifies this
      ensures log == old(log) + [DeleteShardCall(shard)]
      ensures ok ==> shards == old(shards)[..shard] + old(shards)[shard + 1..]
    {
      log := log + [DeleteShardCall(shard)];
      var fails, lost := *, *;
      if fails {
        return false;
      }
      shards := shards[..shard] + shards[shard + 1..];
      return !lost;
    }

    // Any status other than 200 reaches the operator as nothing and no error: right
    // for a shard that does not exist, and otherwise a read that went unanswered.
    method GetNodes(shard: nat) returns (ok: bool, data: Option<seq<ShardNode>>, ghost answered: bool)
      ensures ok && answered ==> data == if shard < |shards| then Some(shards[shard].nodes) else None
      ensures data.Some? ==> answered && shard < |shards| && data.value == shards[shard].nodes
    {
      var success := *;
      ok := *;
      data := if ok && success && shard < |shards| then Some(shards[shard].nodes) else None;
      answered := success || shard >= |shards|;
    }

    // ----- updateCluster, phase by phase -----

    // One node: delete it when it has no pod.
    method DeleteIfStale(index: nat, node: ShardNode, sts: seq<Node>) returns (ok: bool)
      requires index < |shards|
      modifies this
      ensures log == old(log) + if SimplyIp(node.addr) in Ips(sts) then [] else [DeleteNodeCall(index, node.id)]
      ensures ok ==> shards == AfterTurn(old(shards), index, node, Ips(sts))
    {
      var needDeleted := NeedDeleted(node, sts);
      ok := true;
      if needDeleted {
        ok := DeleteNode(index, node.id);
      }
    }

    // Delete the nodes of one shard that have no pod.
    method DeleteStale(index: nat, data: seq<ShardNode>, sts: seq<Node>) returns (ok: bool)
      requires index < |shards| && data == shards[index].nodes
      modifies this
      ensures ok ==> OnlyShard(old(shards), shards, index)
      ensures ok && UniqueIds(data) ==> shards[index] == old(shards)[index].(nodes := Listed(data, Ips(sts)))
      ensures ok ==> log == old(log) + DeleteCalls(index, data, Ips(sts))
      ensures Between(old(log), log, DeleteCalls(index, data, Ips(sts)))
    {
      ghost var before, logged, ips := shards, log, Ips(sts);
      PruningStart(before, logged, index, data, ips);
      for k := 0 to |data|
        invariant Pruning(before, shards, index, k, ips) && PruneLog(logged, log, index, data, k, ips)
      {
        ghost var mid := shards;
        PruneLogNext(logged, log, index, data, k, ips);
        ok := DeleteIfStale(index, data[k], sts);
        if !ok {
          return;
        }
        PruningTurn(before, mid, shards, index, k, ips);
      }
      PruningDone(before, shards, logged, log, index, data, ips);
      ok := true;
    }

    // Add the pods of one shard that have no node.
    method AddMissing(index: nat, data: seq<ShardNode>, sts: seq<Node>) returns (ok: bool)
      requires index < |shards| && data == shards[index].nodes
      modifies this
      ensures ok ==> OnlyShard(old(shards), shards, index)
      ensures ok ==> Extended(old(shards)[index], shards[index], Missing(sts, ShardIps(data)))
      ensures ok ==> log == old(log) + AddCalls(index, Missing(sts, ShardIps(data)))
      ensures Between(old(log), log, AddCalls(index, Missing(sts, ShardIps(data))))
    {
      ghost var before, logged := shards, log;
      ghost var have, sofar := ShardIps(data), [];
      for k := 0 to |sts|
        invariant OnlyShard(before, shards, index) && sofar == Missing(sts[..k], have)
        invariant Extended(before[index], shards[index], sofar)
        invariant log == logged + AddCalls(index, sofar)
      {
        var needAdded := NeedAdded(sts[k], data);
        MissingSnoc(sts, k, have);
        if needAdded {
          ghost var shard := shards[index];
          AddCallsSnoc(index, sofar, sts[k]);
          LogSnoc(logged, AddCalls(index, sofar), AddNodeCall(index, Addr(sts[k].ip), sts[k].role));
          ok := AddNode(index, Addr(sts[k].ip), sts[k].role);
          if !ok {
            AddStop(logged, index, sts, k, have);
            return;
          }
          ExtendedOne(before[index], shard, shards[index], sofar, sts[k]);
          sofar := sofar + [sts[k]];
        }
      }
      assert sts[..|sts|] == sts;
      ok := true;
    }

    // One turn of the first phase.
    method RemoveTurn(index: nat, sts: seq<Node>) returns (ok: bool, ghost answered: bool)
      requires index <= |shards|
      modifies this
      ensures ok ==> index < |shards|
      ensures answered ==> Between(old(log), log, RemoveCallsAt(old(shards), index, sts))
      // an unanswered read creates the shard a second time
      ensures ok && !answered ==>
        && log == old(log) + [CreateShardCall(Addrs(sts))]
        && |shards| == |old(shards)| + 1 && shards[..|old(shards)|] == old(shards)
      ensures ok && answered && (index < |old(shards)| ==> UniqueIds(old(shards)[index].nodes)) ==>
        && log == old(log) + RemoveCallsAt(old(shards), index, sts)
        && RemovedAt(old(shards), shards, index, sts)
    {
      var data;
      ok, data, answered := GetNodes(index);
      if !ok {
        return;
      }
      if data == None {
        ok := CreateShard(Addrs(sts));
      } else {
        ok := DeleteStale(index, data.value, sts);
      }
    }

    // Drop stale nodes of the shards that exist, create the others.
    method RemovePhase(sts: seq<seq<Node>>) returns (ok: bool, ghost answered: bool)
      requires TableUnique(shards)
      modifies this
      ensures ok ==> |sts| <= |shards|
      ensures ok && answered ==> Removed(old(shards), shards, sts) && log == old(log) + RemoveCalls(old(shards), sts)
      ensures answered ==> Between(old(log), log, RemoveCalls(old(shards), sts))
    {
      ghost var before, logged := shards, log;
      answered := true;
      for index := 0 to |sts|
        invariant index <= |shards|
        invariant answered ==>
          Removed(before, shards, sts[..index]) && log == logged + RemoveCalls(before, sts[..index])
      {
        ghost var mid, start := shards, log;
        ghost var good;
        ok, good := RemoveTurn(index, sts[index]);
        if answered && good {
          SameTurn(before, mid, sts, index);
          RemoveStop(before, sts, index, logged, start, log);
          if ok {
            RemovedOne(before, mid, shards, sts, index);
          }
        }
        answered := answered && good;
        if !ok {
          return;
        }
      }
      assert sts[..|sts|] == sts;
      ok := true;
    }

    // In the second phase a read that went unanswered is a nil dereference.
    method AddPhase(sts: seq<seq<Node>>) returns (r: UpdateResult)
      requires |sts| <= |shards|
      modifies this
      ensures r == Updated ==> Added(old(shards), shards, sts) && log == old(log) + AddAllCalls(old(shards), sts)
      ensures Between(old(log), log, AddAllCalls(old(shards), sts))
    {
      ghost var before, logged := shards, log;
      for index := 0 to |sts|
        invariant Added(before, shards, sts[..index])
        invariant log == logged + AddAllCalls(before, sts[..index])
      {
        ghost var mid, start := shards, log;
        AddAllStop(before, sts, index, logged, start, start);
        var ok, data;
        ghost var answered;
        ok, data, answered := GetNodes(index);
        if !ok {
          return Stopped;
        }
        if data == None {
          return Crashed;
        }
        ok := AddMissing(index, data.value, sts[index]);
        AddAllStop(before, sts, index, logged, start, log);
        if !ok {
          return Stopped;
        }
        AddedOne(before, mid, shards, sts, index);
      }
      assert sts[..|sts|] == sts;
      r := Updated;
    }

    // Delete the shards beyond the last StatefulSet, from the top. When the list of
    // shards is not answered there seem to be none.
    method TrimPhase(count: nat) returns (ok: bool, ghost answered: bool)
      requires count <= |shards|
      modifies this
      ensures ok && answered ==> shards == old(shards)[..count] && log == old(log) + TrimCalls(|old(shards)|, count)
      ensures ok && !answered ==> shards == old(shards) && log == old(log)
      ensures Between(old(log), log, TrimCalls(|old(shards)|, count))
    {
      ghost var before, logged := shards, log;
      var success := *;
      answered := success;
      ok := *;
      if !ok || !success {
        return;
      }
      var i := |shards| - 1;
      while i >= count
        invariant count - 1 <= i < |before| && shards == before[..i + 1]
        invariant logged <= log && log + TrimCalls(i + 1, count) == logged + TrimCalls(|before|, count)
      {
        LogConcat(log, [DeleteShardCall(i)], TrimCalls(i, count));
        ok := DeleteShard(i);
        if !ok {
          return;
        }
        assert before[..i + 1][..i] == before[..i];
        i := i - 1;
      }
      ok := true;
    }

    // updateCluster. When every call succeeds and every read is answered the calls
    // made are UpdateCalls and the table follows the pods; as long as reads are
    // answered, a run cut short made a prefix of these calls.
    method UpdateCluster(sts: seq<seq<Node>>) returns (r: UpdateResult, ghost answered: bool)
      requires TableUnique(shards)
      modifies this
      ensures r == Updated && answered ==> log == old(log) + UpdateCalls(old(shards), sts)
      ensures r == Updated && answered ==> Followed(old(shards), shards, sts)
      ensures answered ==> Between(old(log), log, UpdateCalls(old(shards), sts))
    {
      ghost var before, logged := shards, log;
      ghost var a, b := RemoveCalls(before, sts), AddPhaseCalls(before, sts, |sts|);
      ghost var c := TrimCalls(if |before| < |sts| then |sts| else |before|, |sts|);
      var ok;
      ok, answered := RemovePhase(sts);
      if answered {
        BetweenWiden(logged, log, a, b + c);
        LogConcat(a, b, c);
      }
      if !ok {
        return Stopped, answered;
      }
      ghost var mid := shards;
      r := AddPhase(sts);
      if answered {
        SameAddCalls(before, mid, sts);
        BetweenAfter(logged, a, log, b);
        BetweenWiden(logged, log, a + b, c);
        LogConcat(logged, a, b);
      }
      if r != Updated {
        return;
      }
      ghost var full := shards;
      ghost var listed;
      ok, listed := TrimPhase(|sts|);
      if answered {
        BetweenAfter(logged, a + b, log, c);
        LogConcat(logged, a + b, c);
        if ok && listed {
          PhasesFollow(before, mid, full, sts);
        }
      }
      r := if ok then Updated else Stopped;
      answered := answered && listed;
    }
  }

  // The inner loops: has a node a pod, has a pod a node?
  method NeedDeleted(node: ShardNode, sts: seq<Node>) returns (needDeleted: bool)
    ensures needDeleted <==> SimplyIp(node.addr) !in Ips(sts)
  {
    needDeleted := true;
    for j := 0 to |sts|
      invariant needDeleted && forall i :: 0 <= i < j ==> sts[i].ip != SimplyIp(node.addr)
    {
      if SimplyIp(node.addr) == sts[j].ip {
        needDeleted := false;
        break;
      }
    }
  }

  method NeedAdded(pod: Node, data: seq<ShardNode>) returns (needAdded: bool)
    ensures needAdded <==> pod.ip !in ShardIps(data)
  {
    needAdded := true;
    for j := 0 to |data|
      invariant needAdded && forall i :: 0 <= i < j ==> SimplyIp(data[i].addr) != pod.ip
    {
      if SimplyIp(data[j].addr) == pod.ip {
        needAdded := false;
        break;
      }
    }
  }

  // ----- what the phases do -----

  // No shard but one changes.
  predicate OnlyShard(a: seq<Shard>, b: seq<Shard>, index: int) {
    |a| == |b| && 0 <= index < |a| && forall i :: 0 <= i < |a| && i != index ==> a[i] == b[i]
  }

  // The nodes that have a pod.
  function Listed(nodes: seq<ShardNode>, ips: set<string>): (r: seq<ShardNode>)
    ensures |r| <= |nodes|
  {
    if nodes == [] then []
    else
      var n := |nodes| - 1;
      Listed(nodes[..n], ips) + if SimplyIp(nodes[n].addr) in ips then [nodes[n]] else []
  }

  // The pods that have no node.
  function Missing(sts: seq<Node>, have: set<string>): (r: seq<Node>) {
    if sts == [] then []
    else
      var n := |sts| - 1;
      Missing(sts[..n], have) + if sts[n].ip in have then [] else [sts[n]]
  }

  // The shard with one node appended for each pod of `added`.
  predicate Extended(a: Shard, b: Shard, added: seq<Node>) {
    && a.nodes <= b.nodes && b.slotRanges == a.slotRanges
    && |b.nodes| == |a.nodes| + |added|
    && forall k :: 0 <= k < |added| ==>
         b.nodes[|a.nodes| + k].addr == Addr(added[k].ip) && b.nodes[|a.nodes| + k].role == added[k].role
  }

  predicate Appended(a: Shard, b: Shard, addr: string, role: string) {
    var n := |a.nodes|;
    && |b.nodes| == n + 1 && b.nodes[..n] == a.nodes && b.slotRanges == a.slotRanges
    && b.nodes[n].addr == addr && b.nodes[n].role == role
  }

  function DeleteCalls(index: int, nodes: seq<ShardNode>, ips: set<string>): (r: seq<Call>) {
    if nodes == [] then []
    else
      var n := |nodes| - 1;
      DeleteCalls(index, nodes[..n], ips) +
      if SimplyIp(nodes[n].addr) in ips then [] else [DeleteNodeCall(index, nodes[n].id)]
  }

  function AddCalls(index: int, added: seq<Node>): (r: seq<Call>) {
    if added == [] then []
    else
      var n := |added| - 1;
      AddCalls(index, added[..n]) + [AddNodeCall(index, Addr(added[n].ip), added[n].role)]
  }

  lemma {:induction false} WithoutIdSnoc(nodes: seq<ShardNode>, x: ShardNode, id: string)
    ensures WithoutId(nodes + [x], id) == WithoutId(nodes, id) + if x.id == id then [] else [x]
  {
    assert (nodes + [x])[..|nodes|] == nodes;
  }

  lemma {:induction false} WithoutIdNone(nodes: seq<ShardNode>, id: string)
    requires forall k :: 0 <= k < |nodes| ==> nodes[k].id != id
    ensures WithoutId(nodes, id) == nodes
  {
    if nodes != [] {
      var n := |nodes| - 1;
      var init, last := nodes[..n], nodes[n];
      WithoutIdNone(init, id);
      WithoutIdSnoc(init, last, id);
      assert nodes == init + [last];
    }
  }

  lemma {:induction false} ListedIds(nodes: seq<ShardNode>, ips: set<string>, id: string)
    requires forall k :: 0 <= k < |nodes| ==> nodes[k].id != id
    ensures forall k :: 0 <= k < |Listed(nodes, ips)| ==> Listed(nodes, ips)[k].id != id
  {
    if nodes != [] {
      ListedIds(nodes[..|nodes| - 1], ips, id);
    }
  }

  // Deleting stale node k by its id removes that node and no other.
  lemma {:induction false} DeleteOne(data: seq<ShardNode>, k: nat, ips: set<string>)
    requires UniqueIds(data) && k < |data| && SimplyIp(data[k].addr) !in ips
    ensures WithoutId(Listed(data[..k], ips) + data[k..], data[k].id) == Listed(data[..k + 1], ips) + data[k + 1..]
  {
    var id, head, tail := data[k].id, Listed(data[..k], ips), data[k + 1..];
    forall i | 0 <= i < k
      ensures data[..k][i].id != id
    {
    }
    ListedIds(data[..k], ips, id);
    DeleteAt(head, data[k], tail);
    assert data[k..] == [data[k]] + tail;
    ListedSnoc(data, k, ips);
  }

  // Shard `index` after its first k nodes were looked at; the others are untouched.
  ghost predicate Deleting(before: seq<Shard>, now: seq<Shard>, index: nat, k: nat, ips: set<string>)
    requires index < |before| && k <= |before[index].nodes|
  {
    var data := before[index].nodes;
    now == before[index := before[index].(nodes := Listed(data[..k], ips) + data[k..])]
  }

  // The same as far as it goes: ids need not be unique for the other shards to stay.
  ghost predicate Pruning(before: seq<Shard>, now: seq<Shard>, index: nat, k: nat, ips: set<string>) {
    && OnlyShard(before, now, index) && k <= |before[index].nodes|
    && (UniqueIds(before[index].nodes) ==> Deleting(before, now, index, k, ips))
  }

  // The calls logged for the first k nodes.
  ghost predicate PruneLog(logged: seq<Call>, log: seq<Call>, index: int, data: seq<ShardNode>, k: nat,
                           ips: set<string>)
    requires k <= |data|
  {
    log == logged + DeleteCalls(index, data[..k], ips)
  }

  lemma {:induction false} PruningStart(before: seq<Shard>, logged: seq<Call>, index: nat, data: seq<ShardNode>,
                                        ips: set<string>)
    requires index < |before| && data == before[index].nodes
    ensures Pruning(before, before, index, 0, ips) && PruneLog(logged, logged, index, data, 0, ips)
  {
    assert Listed(data[..0], ips) + data[0..] == data;
  }

  lemma {:induction false} PruneLogNext(logged: seq<Call>, log: seq<Call>, index: int, data: seq<ShardNode>, k: nat,
                                        ips: set<string>)
    requires k < |data| && PruneLog(logged, log, index, data, k, ips)
    ensures var next := log + if SimplyIp(data[k].addr) in ips then [] else [DeleteNodeCall(index, data[k].id)];
            PruneLog(logged, next, index, data, k + 1, ips) && Between(logged, next, DeleteCalls(index, data, ips))
  {
    DeleteLogStep(logged, index, data, k, ips);
    DeleteStop(logged, index, data, k, ips);
  }

  lemma {:induction false} PruningDone(before: seq<Shard>, now: seq<Shard>, logged: seq<Call>, log: seq<Call>,
                                       index: nat, data: seq<ShardNode>, ips: set<string>)
    requires index < |before| && data == before[index].nodes && Pruning(before, now, index, |data|, ips)
    requires PruneLog(logged, log, index, data, |data|, ips)
    ensures OnlyShard(before, now, index)
    ensures UniqueIds(data) ==> now[index] == before[index].(nodes := Listed(data, ips))
    ensures log == logged + DeleteCalls(index, data, ips)
    ensures Between(logged, log, DeleteCalls(index, data, ips))
  {
    assert data[..|data|] == data && Listed(data, ips) + data[|data|..] == Listed(data, ips);
  }

  // The table after node `x` of shard `index` was looked at.
  function AfterTurn(now: seq<Shard>, index: nat, x: ShardNode, ips: set<string>): (r: seq<Shard>)
    requires index < |now|
  {
    if SimplyIp(x.addr) in ips then now
    else now[index := now[index].(nodes := WithoutId(now[index].nodes, x.id))]
  }

  lemma {:induction false} PruningTurn(before: seq<Shard>, mid: seq<Shard>, now: seq<Shard>, index: nat, k: nat,
                                       ips: set<string>)
    requires Pruning(before, mid, index, k, ips) && k < |before[index].nodes|
    requires now == AfterTurn(mid, index, before[index].nodes[k], ips)
    ensures Pruning(before, now, index, k + 1, ips)
  {
    if UniqueIds(before[index].nodes) {
      DeletingStep(before, mid, index, k, ips);
    }
  }

  lemma {:induction false} DeletingStep(before: seq<Shard>, now: seq<Shard>, index: nat, k: nat, ips: set<string>)
    requires index < |before| && k < |before[index].nodes| && UniqueIds(before[index].nodes)
    requires Deleting(before, now, index, k, ips)
    ensures index < |now|
    ensures var x := before[index].nodes[k];
      if SimplyIp(x.addr) in ips then Deleting(before, now, index, k + 1, ips)
      else Deleting(before, now[index := now[index].(nodes := WithoutId(now[index].nodes, x.id))], index, k + 1, ips)
  {
    var data := before[index].nodes;
    if SimplyIp(data[k].addr) in ips {
      KeepOne(data, k, ips);
    } else {
      DeleteOne(data, k, ips);
    }
  }

  lemma {:induction false} DeleteLogStep(logged: seq<Call>, index: int, data: seq<ShardNode>, k: nat, ips: set<string>)
    requires k < |data|
    ensures logged + DeleteCalls(index, data[..k + 1], ips)
         == logged + DeleteCalls(index, data[..k], ips)
            + if SimplyIp(data[k].addr) in ips then [] else [DeleteNodeCall(index, data[k].id)]
  {
    DeleteCallsSnoc(index, data, k, ips);
  }

  lemma {:induction false} ListedSnoc(data: seq<ShardNode>, k: nat, ips: set<string>)
    requires k < |data|
    ensures Listed(data[..k + 1], ips)
         == Listed(data[..k], ips) + if SimplyIp(data[k].addr) in ips then [data[k]] else []
  {
    assert data[..k + 1][..k] == data[..k];
  }

  lemma {:induction false} KeepOne(data: seq<ShardNode>, k: nat, ips: set<string>)
    requires k < |data| && SimplyIp(data[k].addr) in ips
    ensures Listed(data[..k], ips) + data[k..] == Listed(data[..k + 1], ips) + data[k + 1..]
  {
    ListedSnoc(data, k, ips);
    assert data[k..] == [data[k]] + data[k + 1..];
  }

  lemma {:induction false} LogSnoc(a: seq<Call>, b: seq<Call>, c: Call)
    ensures a + b + [c] == a + (b + [c])
  {
  }

  lemma {:induction false} DeleteCallsSnoc(index: int, data: seq<ShardNode>, k: nat, ips: set<string>)
    requires k < |data|
    ensures DeleteCalls(index, data[..k + 1], ips)
         == DeleteCalls(index, data[..k], ips)
            + if SimplyIp(data[k].addr) in ips then [] else [DeleteNodeCall(index, data[k].id)]
  {
    assert data[..k + 1][..k] == data[..k];
  }

  lemma {:induction false} MissingSnoc(sts: seq<Node>, k: nat, have: set<string>)
    requires k < |sts|
    ensures Missing(sts[..k + 1], have) == Missing(sts[..k], have) + if sts[k].ip in have then [] else [sts[k]]
  {
    assert sts[..k + 1][..k] == sts[..k];
  }

  lemma {:induction false} DeleteAt(head: seq<ShardNode>, x: ShardNode, tail: seq<ShardNode>)
    requires forall i :: 0 <= i < |head| ==> head[i].id != x.id
    requires forall i :: 0 <= i < |tail| ==> tail[i].id != x.id
    ensures WithoutId(head + ([x] + tail), x.id) == head + tail
  {
    if tail == [] {
      assert head + ([x] + tail) == head + [x] && head + tail == head;
      WithoutIdSnoc(head, x, x.id);
      WithoutIdNone(head, x.id);
    } else {
      var n := |tail| - 1;
      var init, last := tail[..n], tail[n];
      DeleteAt(head, x, init);
      LastOut(head, x, init, last);
      assert tail == init + [last];
      WithoutIdSnoc(head + ([x] + init), last, x.id);
    }
  }

  lemma {:induction false} LastOut(head: seq<ShardNode>, x: ShardNode, init: seq<ShardNode>, last: ShardNode)
    ensures head + ([x] + (init + [last])) == head + ([x] + init) + [last]
    ensures head + (init + [last]) == head + init + [last]
  {
  }

  lemma {:induction false} ExtendedOne(a: Shard, b: Shard, c: Shard, added: seq<Node>, n: Node)
    requires Extended(a, b, added) && Appended(b, c, Addr(n.ip), n.role)
    ensures Extended(a, c, added + [n])
  {
    var x, n', all := c.nodes[|b.nodes|], |a.nodes|, added + [n];
    assert c.nodes == b.nodes + [x];
    assert a.nodes <= b.nodes <= c.nodes;
    forall k | 0 <= k < |all|
      ensures c.nodes[n' + k].addr == Addr(all[k].ip) && c.nodes[n' + k].role == all[k].role
    {
      assert c.nodes[n' + k] == if k < |added| then b.nodes[n' + k] else x;
    }
  }

  lemma {:induction false} AddCallsSnoc(index: int, added: seq<Node>, n: Node)
    ensures AddCalls(index, added + [n]) == AddCalls(index, added) + [AddNodeCall(index, Addr(n.ip), n.role)]
  {
    assert (added + [n])[..|added|] == added;
  }

  // ----- the whole table -----

  ghost predicate TableUnique(shards: seq<Shard>) {
    forall i :: 0 <= i < |shards| ==> UniqueIds(shards[i].nodes)
  }

  lemma {:induction false} LogConcat(a: seq<Call>, b: seq<Call>, c: seq<Call>)
    ensures a + b + c == a + (b + c)
  {
  }

  lemma {:induction false} PrefixOfSum(a: seq<Call>, b: seq<Call>, c: seq<Call>)
    requires a + b <= c
    ensures a <= c
  {
    assert a <= a + b;
  }

  // The log grew from `a` by a prefix of `calls`.
  predicate Between(a: seq<Call>, log: seq<Call>, calls: seq<Call>) {
    a <= log <= a + calls
  }

  lemma {:induction false} BetweenWiden(a: seq<Call>, log: seq<Call>, b: seq<Call>, c: seq<Call>)
    requires Between(a, log, b)
    ensures Between(a, log, b + c)
  {
    LogConcat(a, b, c);
    assert log <= a + b + c;
  }

  lemma {:induction false} BetweenAfter(a: seq<Call>, b: seq<Call>, log: seq<Call>, c: seq<Call>)
    requires Between(a + b, log, c)
    ensures Between(a, log, b + c)
  {
    LogConcat(a, b, c);
    assert a <= a + b;
  }

  lemma {:induction false} BetweenPrefix(a: seq<Call>, b: seq<Call>, c: seq<Call>)
    requires b <= c
    ensures Between(a, a + b, c)
  {
    assert c == b + c[|b|..];
    LogConcat(a, b, c[|b|..]);
  }

  lemma {:induction false} DeleteStop(a: seq<Call>, index: int, data: seq<ShardNode>, k: nat, ips: set<string>)
    requires k < |data|
    ensures Between(a, a + DeleteCalls(index, data[..k + 1], ips), DeleteCalls(index, data, ips))
    decreases |data| - k
  {
    if k + 1 == |data| {
      assert data[..k + 1] == data;
    } else {
      DeleteStop(a, index, data, k + 1, ips);
      DeleteCallsSnoc(index, data, k + 1, ips);
    }
  }

  lemma {:induction false} AddStop(a: seq<Call>, index: int, sts: seq<Node>, k: nat, have: set<string>)
    requires k < |sts|
    ensures Between(a, a + AddCalls(index, Missing(sts[..k + 1], have)), AddCalls(index, Missing(sts, have)))
  {
    var some, all := Missing(sts[..k + 1], have), Missing(sts, have);
    MissingPrefix(sts, k + 1, have);
    assert all[..|some|] == some;
    AddCallsPrefix(index, all, |some|);
    BetweenPrefix(a, AddCalls(index, some), AddCalls(index, all));
  }

  lemma {:induction false} MissingPrefix(sts: seq<Node>, k: nat, have: set<string>)
    requires k <= |sts|
    ensures Missing(sts[..k], have) <= Missing(sts, have)
    decreases |sts| - k
  {
    if k == |sts| {
      assert sts[..k] == sts;
    } else {
      MissingPrefix(sts, k + 1, have);
      MissingSnoc(sts, k, have);
    }
  }

  lemma {:induction false} AddCallsPrefix(index: int, added: seq<Node>, k: nat)
    requires k <= |added|
    ensures AddCalls(index, added[..k]) <= AddCalls(index, added)
    decreases |added| - k
  {
    if k == |added| {
      assert added[..k] == added;
    } else {
      AddCallsPrefix(index, added, k + 1);
      AddCallsNext(index, added, k);
      PrefixOfSum(AddCalls(index, added[..k]), [AddNodeCall(index, Addr(added[k].ip), added[k].role)],
                  AddCalls(index, added));
    }
  }

  lemma {:induction false} AddCallsNext(index: int, added: seq<Node>, k: nat)
    requires k < |added|
    ensures AddCalls(index, added[..k + 1])
         == AddCalls(index, added[..k]) + [AddNodeCall(index, Addr(added[k].ip), added[k].role)]
  {
    assert added[..k] + [added[k]] == added[..k + 1];
    AddCallsSnoc(index, added[..k], added[k]);
  }

  // A new shard lists the pods of its StatefulSet in order.
  predicate Created(s: Shard, sts: seq<Node>) {
    |s.nodes| == |sts| && forall k :: 0 <= k < |sts| ==> s.nodes[k].addr == Addr(sts[k].ip)
  }

  // After the first phase.
  ghost predicate Removed(a: seq<Shard>, b: seq<Shard>, sts: seq<seq<Node>>) {
    && |b| == (if |a| < |sts| then |sts| else |a|)
    && (forall i :: 0 <= i < |sts| && i < |a| ==> b[i] == a[i].(nodes := Listed(a[i].nodes, Ips(sts[i]))))
    && (forall i :: |a| <= i < |sts| ==> Created(b[i], sts[i]))
    && (forall i :: |sts| <= i < |a| ==> b[i] == a[i])
  }

  function RemoveCalls(shards: seq<Shard>, sts: seq<seq<Node>>): (r: seq<Call>) {
    if sts == [] then []
    else
      var n := |sts| - 1;
      RemoveCalls(shards, sts[..n]) +
      if n < |shards| then DeleteCalls(n, shards[n].nodes, Ips(sts[n])) else [CreateShardCall(Addrs(sts[n]))]
  }

  // The calls for one StatefulSet in the first phase.
  function RemoveCallsAt(shards: seq<Shard>, i: nat, sts: seq<Node>): (r: seq<Call>) {
    if i < |shards| then DeleteCalls(i, shards[i].nodes, Ips(sts)) else [CreateShardCall(Addrs(sts))]
  }

  // What it does to the table.
  ghost predicate RemovedAt(a: seq<Shard>, b: seq<Shard>, i: nat, sts: seq<Node>)
    requires i <= |a|
  {
    if i < |a| then OnlyShard(a, b, i) && b[i] == a[i].(nodes := Listed(a[i].nodes, Ips(sts)))
    else |b| == |a| + 1 && b[..|a|] == a && Created(b[|a|], sts)
  }

  function RemoveCallsOf(shards: seq<Shard>, sts: seq<seq<Node>>, i: nat): (r: seq<Call>)
    requires i < |sts|
  {
    RemoveCallsAt(shards, i, sts[i])
  }

  // A shard not reached yet is still as it was.
  lemma {:induction false} SameTurn(before: seq<Shard>, mid: seq<Shard>, sts: seq<seq<Node>>, i: nat)
    requires i < |sts| && i <= |mid| && TableUnique(before) && Removed(before, mid, sts[..i])
    ensures RemoveCallsAt(mid, i, sts[i]) == RemoveCallsOf(before, sts, i)
    ensures i < |mid| ==> i < |before| && mid[i] == before[i] && UniqueIds(mid[i].nodes)
    ensures i < |before| ==> i < |mid|
  {
  }

  lemma {:induction false} RemoveCallsSnoc(shards: seq<Shard>, sts: seq<seq<Node>>, i: nat)
    requires i < |sts|
    ensures RemoveCalls(shards, sts[..i + 1]) == RemoveCalls(shards, sts[..i]) + RemoveCallsOf(shards, sts, i)
  {
    assert sts[..i + 1][..i] == sts[..i];
  }

  lemma {:induction false} RemoveCallsPrefix(shards: seq<Shard>, sts: seq<seq<Node>>, i: nat)
    requires i <= |sts|
    ensures RemoveCalls(shards, sts[..i]) <= RemoveCalls(shards, sts)
    decreases |sts| - i
  {
    if i == |sts| {
      assert sts[..i] == sts;
    } else {
      RemoveCallsPrefix(shards, sts, i + 1);
      RemoveCallsSnoc(shards, sts, i);
      PrefixOfSum(RemoveCalls(shards, sts[..i]), RemoveCallsOf(shards, sts, i), RemoveCalls(shards, sts));
    }
  }

  // Wherever the first phase stops, its calls are a prefix of the planned ones.
  lemma {:induction false} RemoveStop(shards: seq<Shard>, sts: seq<seq<Node>>, i: nat,
                                      logged: seq<Call>, start: seq<Call>, log: seq<Call>)
    requires i < |sts| && start == logged + RemoveCalls(shards, sts[..i])
    requires Between(start, log, RemoveCallsOf(shards, sts, i))
    ensures Between(logged, log, RemoveCalls(shards, sts))
    ensures start + RemoveCallsOf(shards, sts, i) == logged + RemoveCalls(shards, sts[..i + 1])
  {
    var done, next := RemoveCalls(shards, sts[..i]), RemoveCallsOf(shards, sts, i);
    RemoveCallsSnoc(shards, sts, i);
    RemoveCallsPrefix(shards, sts, i + 1);
    LogConcat(logged, done, next);
    BetweenAfter(logged, done, log, next);
    var all := RemoveCalls(shards, sts);
    var rest := all[|done + next|..];
    assert all == done + next + rest;
    BetweenWiden(logged, log, done + next, rest);
  }

  lemma {:induction false} RemovedOne(before: seq<Shard>, mid: seq<Shard>, after: seq<Shard>, sts: seq<seq<Node>>,
                                      index: nat)
    requires index < |sts| && Removed(before, mid, sts[..index])
    requires index < |before| ==>
      && OnlyShard(mid, after, index)
      && after[index] == mid[index].(nodes := Listed(mid[index].nodes, Ips(sts[index])))
    requires index >= |before| ==>
      |after| == |mid| + 1 && after[..|mid|] == mid && Created(after[|mid|], sts[index])
    ensures Removed(before, after, sts[..index + 1])
  {
    assert forall i :: 0 <= i < index ==> sts[..index][i] == sts[..index + 1][i];
    if index >= |before| {
      assert forall i :: 0 <= i < |mid| ==> after[i] == after[..|mid|][i];
    }
  }

  // After the second phase.
  ghost predicate Added(a: seq<Shard>, b: seq<Shard>, sts: seq<seq<Node>>) {
    && |b| == |a| && |sts| <= |a|
    && (forall i :: 0 <= i < |sts| ==> Extended(a[i], b[i], Missing(sts[i], ShardIps(a[i].nodes))))
    && (forall i :: |sts| <= i < |a| ==> b[i] == a[i])
  }

  function AddAllCalls(shards: seq<Shard>, sts: seq<seq<Node>>): (r: seq<Call>)
    requires |sts| <= |shards|
  {
    if sts == [] then []
    else
      var n := |sts| - 1;
      AddAllCalls(shards, sts[..n]) + AddCalls(n, Missing(sts[n], ShardIps(shards[n].nodes)))
  }

  function AddCallsOf(shards: seq<Shard>, sts: seq<seq<Node>>, i: nat): (r: seq<Call>)
    requires i < |sts| <= |shards|
  {
    AddCalls(i, Missing(sts[i], ShardIps(shards[i].nodes)))
  }

  lemma {:induction false} AddAllCallsSnoc(shards: seq<Shard>, sts: seq<seq<Node>>, i: nat)
    requires i < |sts| <= |shards|
    ensures AddAllCalls(shards, sts[..i + 1]) == AddAllCalls(shards, sts[..i]) + AddCallsOf(shards, sts, i)
  {
    assert sts[..i + 1][..i] == sts[..i];
  }

  lemma {:induction false} AddAllCallsPrefix(shards: seq<Shard>, sts: seq<seq<Node>>, i: nat)
    requires i <= |sts| <= |shards|
    ensures AddAllCalls(shards, sts[..i]) <= AddAllCalls(shards, sts)
    decreases |sts| - i
  {
    if i == |sts| {
      assert sts[..i] == sts;
    } else {
      AddAllCallsPrefix(shards, sts, i + 1);
      AddAllCallsSnoc(shards, sts, i);
      PrefixOfSum(AddAllCalls(shards, sts[..i]), AddCallsOf(shards, sts, i), AddAllCalls(shards, sts));
    }
  }

  lemma {:induction false} AddAllStop(shards: seq<Shard>, sts: seq<seq<Node>>, i: nat,
                                      logged: seq<Call>, start: seq<Call>, log: seq<Call>)
    requires i < |sts| <= |shards| && start == logged + AddAllCalls(shards, sts[..i])
    requires Between(start, log, AddCallsOf(shards, sts, i))
    ensures Between(logged, log, AddAllCalls(shards, sts))
    ensures start + AddCallsOf(shards, sts, i) == logged + AddAllCalls(shards, sts[..i + 1])
  {
    var done, next := AddAllCalls(shards, sts[..i]), AddCallsOf(shards, sts, i);
    AddAllCallsSnoc(shards, sts, i);
    AddAllCallsPrefix(shards, sts, i + 1);
    LogConcat(logged, done, next);
    BetweenAfter(logged, done, log, next);
    var all := AddAllCalls(shards, sts);
    var rest := all[|done + next|..];
    assert all == done + next + rest;
    BetweenWiden(logged, log, done + next, rest);
  }

  lemma {:induction false} AddedOne(before: seq<Shard>, mid: seq<Shard>, after: seq<Shard>, sts: seq<seq<Node>>,
                                    index: nat)
    requires index < |sts| <= |before| && Added(before, mid, sts[..index])
    requires OnlyShard(mid, after, index)
    requires Extended(mid[index], after[index], Missing(sts[index], ShardIps(mid[index].nodes)))
    ensures Added(before, after, sts[..index + 1])
  {
    assert forall i :: 0 <= i < index ==> sts[..index][i] == sts[..index + 1][i];
  }

  function TrimCalls(n: nat, count: nat): (r: seq<Call>) {
    if n <= count then [] else [DeleteShardCall(n - 1)] + TrimCalls(n - 1, count)
  }

  // The addresses a shard holds when the second phase begins.
  function Have(shards: seq<Shard>, sts: seq<seq<Node>>, i: nat): (r: set<string>)
    requires i < |sts|
  {
    if i < |shards| then ShardIps(Listed(shards[i].nodes, Ips(sts[i])))
    else set k | 0 <= k < |sts[i]| :: SimplyIp(Addr(sts[i][k].ip))
  }

  function AddPhaseCalls(shards: seq<Shard>, sts: seq<seq<Node>>, n: nat): (r: seq<Call>)
    requires n <= |sts|
  {
    if n == 0 then []
    else AddPhaseCalls(shards, sts, n - 1) + AddCalls(n - 1, Missing(sts[n - 1], Have(shards, sts, n - 1)))
  }

  // Every mutating call of a run of updateCluster, in order.
  function UpdateCalls(shards: seq<Shard>, sts: seq<seq<Node>>): (r: seq<Call>) {
    RemoveCalls(shards, sts) + AddPhaseCalls(shards, sts, |sts|) +
    TrimCalls(if |shards| < |sts| then |sts| else |shards|, |sts|)
  }

  lemma {:induction false} HaveIs(before: seq<Shard>, mid: seq<Shard>, sts: seq<seq<Node>>, i: nat)
    requires Removed(before, mid, sts) && i < |sts|
    ensures ShardIps(mid[i].nodes) == Have(before, sts, i)
  {
    if i >= |before| {
      assert Created(mid[i], sts[i]);
    }
  }

  lemma {:induction false} SameAddCallsTo(before: seq<Shard>, mid: seq<Shard>, sts: seq<seq<Node>>, n: nat)
    requires Removed(before, mid, sts) && n <= |sts|
    ensures AddAllCalls(mid, sts[..n]) == AddPhaseCalls(before, sts, n)
  {
    if n > 0 {
      SameAddCallsTo(before, mid, sts, n - 1);
      HaveIs(before, mid, sts, n - 1);
      assert sts[..n][..n - 1] == sts[..n - 1];
    }
  }

  lemma {:induction false} SameAddCalls(before: seq<Shard>, mid: seq<Shard>, sts: seq<seq<Node>>)
    requires Removed(before, mid, sts)
    ensures AddAllCalls(mid, sts) == AddPhaseCalls(before, sts, |sts|)
  {
    SameAddCallsTo(before, mid, sts, |sts|);
    assert sts[..|sts|] == sts;
  }

  ghost predicate FollowedShard(shards: seq<Shard>, after: seq<Shard>, sts: seq<seq<Node>>, i: nat)
    requires i < |sts| && i < |after|
  {
    if i < |shards| then
      var base := shards[i].(nodes := Listed(shards[i].nodes, Ips(sts[i])));
      Extended(base, after[i], Missing(sts[i], ShardIps(base.nodes)))
    else
      exists base :: Created(base, sts[i]) && Extended(base, after[i], Missing(sts[i], ShardIps(base.nodes)))
  }

  // One shard for each StatefulSet; nodes that have a pod stay as they are, ids
  // included, and the pods without a node are appended.
  ghost predicate Followed(shards: seq<Shard>, after: seq<Shard>, sts: seq<seq<Node>>) {
    |after| == |sts| && forall i :: 0 <= i < |sts| ==> FollowedShard(shards, after, sts, i)
  }

  lemma {:induction false} PhasesFollow(before: seq<Shard>, mid: seq<Shard>, full: seq<Shard>, sts: seq<seq<Node>>)
    requires Removed(before, mid, sts) && Added(mid, full, sts)
    ensures Followed(before, full[..|sts|], sts)
  {
    var after := full[..|sts|];
    forall i | 0 <= i < |sts|
      ensures FollowedShard(before, after, sts, i)
    {
      assert after[i] == full[i];
      if i >= |before| {
        assert Created(mid[i], sts[i]);
      }
    }
  }
}
