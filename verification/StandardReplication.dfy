// Replication in standard mode: one master, every other server a replica of it,
// and pod labels that say so.
module StandardReplication {
  import opened Topology

  datatype Result = Ok | Requeue | Error

  // What each server replicates from; "" for a master.
  type Upstream = map<string, string>

  function PodsOf(nodes: seq<Node>): (r: set<int>) {
    set k | 0 <= k < |nodes| :: nodes[k].podIndex
  }

  // The listing of one StatefulSet: distinct pods with distinct addresses.
  predicate Listing(nodes: seq<Node>) {
    && (forall k :: 0 <= k < |nodes| ==> nodes[k].ip != "")
    && (forall i, j :: 0 <= i < j < |nodes| ==> nodes[i].ip != nodes[j].ip && nodes[i].podIndex != nodes[j].podIndex)
  }

  // Every listed server replicates from `master`, which replicates from none.
  function Rewired(up: Upstream, nodes: seq<Node>, master: string): (r: Upstream) {
    map ip | ip in up.Keys + Ips(nodes) ::
      if ip in Ips(nodes) then (if ip == master then "" else master) else up[ip]
  }

  function Relabelled(labels: map<int, string>, nodes: seq<Node>, master: string): (r: map<int, string>) {
    map p | p in labels.Keys + PodsOf(nodes) ::
      if p in PodsOf(nodes) then RoleOf(nodes, p, master) else labels[p]
  }

  function RoleOf(nodes: seq<Node>, pod: int, master: string): (role: string) {
    if exists k :: 0 <= k < |nodes| && nodes[k].podIndex == pod && nodes[k].ip == master then MASTER else SLAVE
  }

  lemma {:induction false} RewiredSnoc(up: Upstream, nodes: seq<Node>, k: nat, master: string)
    requires k < |nodes|
    ensures Rewired(up, nodes[..k + 1], master)
         == Rewired(up, nodes[..k], master)[nodes[k].ip := if nodes[k].ip == master then "" else master]
  {
    ListedSnoc(nodes, k);
  }

  lemma {:induction false} ListedSnoc(nodes: seq<Node>, k: nat)
    requires k < |nodes|
    ensures Ips(nodes[..k + 1]) == Ips(nodes[..k]) + {nodes[k].ip}
    ensures PodsOf(nodes[..k + 1]) == PodsOf(nodes[..k]) + {nodes[k].podIndex}
  {
    var a, b := nodes[..k], nodes[..k + 1];
    assert b[k] == nodes[k];
    assert forall i :: 0 <= i < k ==> a[i] == b[i];
  }

  lemma {:induction false} RelabelledSnoc(labels: map<int, string>, nodes: seq<Node>, k: nat, master: string)
    requires Listing(nodes) && k < |nodes|
    ensures Relabelled(labels, nodes[..k + 1], master)
         == Relabelled(labels, nodes[..k], master)[nodes[k].podIndex := if nodes[k].ip == master then MASTER else SLAVE]
  {
    var a, b := nodes[..k], nodes[..k + 1];
    ListedSnoc(nodes, k);
    forall p | p in PodsOf(b)
      ensures RoleOf(b, p, master) == if p == nodes[k].podIndex then (if nodes[k].ip == master then MASTER else SLAVE)
                                      else RoleOf(a, p, master)
    {
      RoleSnoc(nodes, k, p, master);
    }
  }

  lemma {:induction false} RoleSnoc(nodes: seq<Node>, k: nat, p: int, master: string)
    requires Listing(nodes) && k < |nodes|
    ensures RoleOf(nodes[..k + 1], p, master)
         == if p == nodes[k].podIndex then (if nodes[k].ip == master then MASTER else SLAVE)
            else RoleOf(nodes[..k], p, master)
  {
    var a, b := nodes[..k], nodes[..k + 1];
    assert b[k] == nodes[k];
    assert forall i :: 0 <= i < k ==> a[i] == b[i] == nodes[i];
    if p == nodes[k].podIndex {
      assert forall i :: 0 <= i < k ==> b[i].podIndex != p;
    }
  }

  // The roles the operator read are those the servers have.
  ghost predicate Fresh(up: Upstream, nodes: seq<Node>) {
    && Ips(nodes) <= up.Keys
    && forall k :: 0 <= k < |nodes| ==> (nodes[k].role == MASTER <==> up[nodes[k].ip] == "")
  }

  // Between two states: only listed servers changed, every server that reported
  // master still is one, and no server became one.
  ghost predicate RolesKept(a: Upstream, b: Upstream, nodes: seq<Node>) {
    && a.Keys == b.Keys
    && (forall ip :: ip in a && ip !in Ips(nodes) ==> b[ip] == a[ip])
    && (forall ip :: ip in a ==> (a[ip] == "" <==> b[ip] == ""))
  }

  ghost predicate OnlyListed(a: Upstream, b: Upstream, nodes: seq<Node>) {
    a.Keys == b.Keys && forall ip :: ip in a && ip !in Ips(nodes) ==> b[ip] == a[ip]
  }

  ghost predicate OnlyListedPods(a: map<int, string>, b: map<int, string>, nodes: seq<Node>) {
    a.Keys <= b.Keys <= a.Keys + PodsOf(nodes) && forall p :: p in a && p !in PodsOf(nodes) ==> b[p] == a[p]
  }

  class Servers {
    var upstream: Upstream
    var labels: map<int, string>
    var running: bool            // persisted Status: Running, not Creating

    // SlaveOf, and SlaveOf NO ONE for "". A failed call may have taken effect.
    method SetUpstream(ip: string, master: string) returns (ok: bool)
      modifies this`upstream
      ensures upstream == old(upstream) || upstream == old(upstream)[ip := master]
      ensures ok ==> upstream == old(upstream)[ip := master]
    {
      var fails, lost := *, *;
      if fails {
        return false;
      }
      upstream := upstream[ip := master];
      return !lost;
    }

    method UpdateRole(pod: int, role: string) returns (ok: bool)
      modifies this`labels
      ensures labels == old(labels) || labels == old(labels)[pod := role]
      ensures ok ==> labels == old(labels)[pod := role]
    {
      var fails, lost := *, *;
      if fails {
        return false;
      }
      if pod in labels && labels[pod] == role {
        return true;
      }
      labels := labels[pod := role];
      return !lost;
    }

    method SlaveOfMaster(node: Node, master: string) returns (ok: bool)
      requires node.ip in upstream
      modifies this`upstream, this`labels
      ensures upstream == old(upstream) || upstream == old(upstream)[node.ip := master]
      ensures labels == old(labels) || labels == old(labels)[node.podIndex := SLAVE]
      ensures ok ==> upstream == old(upstream)[node.ip := master] && labels == old(labels)[node.podIndex := SLAVE]
    {
      var fails := *;
      if fails {
        return false;
      }
      var cur := upstream[node.ip];
      if cur != master {
        ok := SetUpstream(node.ip, master);
        if !ok {
          return;
        }
      }
      ok := UpdateRole(node.podIndex, SLAVE);
    }

    // One turn of the Creating loop.
    method PlaceNode(node: Node, i: nat, masterIP: string) returns (ok: bool)
      requires node.ip in upstream && (i == 0 <==> node.ip == masterIP)
      modifies this`upstream, this`labels
      ensures || upstream == old(upstream)
              || upstream == old(upstream)[node.ip := if node.ip == masterIP then "" else masterIP]
      ensures ok ==> upstream == old(upstream)[node.ip := if node.ip == masterIP then "" else masterIP]
      ensures || labels == old(labels)
              || labels == old(labels)[node.podIndex := if node.ip == masterIP then MASTER else SLAVE]
      ensures ok ==> labels == old(labels)[node.podIndex := if node.ip == masterIP then MASTER else SLAVE]
    {
      if i == 0 {
        ok := SetUpstream(node.ip, "");
        if ok {
          ok := UpdateRole(node.podIndex, MASTER);
        }
      } else {
        ok := SlaveOfMaster(node, masterIP);
      }
    }

    method BuildStar(nodes: seq<Node>, masterIP: string) returns (ok: bool)
      requires Listing(nodes) && Ips(nodes) <= upstream.Keys && nodes != [] && masterIP == nodes[0].ip
      modifies this`upstream, this`labels
      ensures OnlyListed(old(upstream), upstream, nodes) && OnlyListedPods(old(labels), labels, nodes)
      ensures ok ==> upstream == Rewired(old(upstream), nodes, masterIP)
      ensures ok ==> labels == Relabelled(old(labels), nodes, masterIP)
    {
      ghost var up, tags := upstream, labels;
      TurnedNone(up, tags, nodes, masterIP);
      for i := 0 to |nodes|
        invariant Turned(up, upstream, tags, labels, nodes, i, masterIP) && OnlyListed(up, upstream, nodes)
        invariant OnlyListedPods(tags, labels, nodes)
      {
        PlaceTurn(up, upstream, tags, labels, nodes, i);
        PodsByTurning(tags, labels, nodes, i, if nodes[i].ip == masterIP then MASTER else SLAVE);
        ok := PlaceNode(nodes[i], i, masterIP);
        if !ok {
          return;
        }
      }
      TurnedAll(up, upstream, tags, labels, nodes, masterIP);
      ok := true;
    }

    // The Creating branch of ensureKVRocksReplication.
    method Create(nodes: seq<Node>) returns (r: Result)
      requires Listing(nodes) && Ips(nodes) <= upstream.Keys
      modifies this
      ensures OnlyListed(old(upstream), upstream, nodes) && OnlyListedPods(old(labels), labels, nodes)
      ensures r == Ok && nodes != [] ==>
        && upstream == Rewired(old(upstream), nodes, nodes[0].ip)
        && labels == Relabelled(old(labels), nodes, nodes[0].ip)
      ensures nodes == [] ==> upstream == old(upstream) && labels == old(labels)
      ensures r == Ok ==> running
      ensures r != Ok ==> r == Error && running == old(running)
    {
      if nodes != [] {
        var ok := BuildStar(nodes, nodes[0].ip);
        if !ok {
          return Error;
        }
      }
      var fails := *;
      if fails {
        return Error;
      }
      running := true;
      return Ok;
    }

    // The other branch: adopt the one master there is.
    method Maintain(nodes: seq<Node>) returns (r: Result)
      requires Listing(nodes) && Fresh(upstream, nodes)
      modifies this
      ensures RolesKept(old(upstream), upstream, nodes) && running == old(running)
      ensures OnlyListedPods(old(labels), labels, nodes)
      ensures r == Ok ==>
        exists m :: 0 <= m < |nodes| && OnlyMaster(nodes, m) &&
          upstream == Rewired(old(upstream), nodes, nodes[m].ip) &&
          labels == Relabelled(old(labels), nodes, nodes[m].ip)
      ensures r == Requeue <==> forall k :: 0 <= k < |nodes| ==> nodes[k].role != MASTER
      ensures (exists i, j :: 0 <= i < j < |nodes| && nodes[i].role == nodes[j].role == MASTER) ==> r == Error
      ensures r == Requeue ==> upstream == old(upstream) && labels == old(labels)
    {
      var masterIP := "";
      ghost var m := 0;
      for k := 0 to |nodes|
        invariant masterIP == "" ==> forall i :: 0 <= i < k ==> nodes[i].role != MASTER
        invariant masterIP != "" ==>
          m < k && nodes[m].ip == masterIP && forall i :: 0 <= i < k ==> (nodes[i].role == MASTER <==> i == m)
      {
        if nodes[k].role == MASTER {
          if masterIP == "" {
            masterIP := nodes[k].ip;
            m := k;
          } else if masterIP != nodes[k].ip {
            return Error;
          }
        }
      }
      if masterIP == "" {
        return Requeue;
      }
      r := Adopt(nodes, masterIP, m);
    }

    method Adopt(nodes: seq<Node>, masterIP: string, ghost m: nat) returns (r: Result)
      requires Listing(nodes) && Fresh(upstream, nodes) && OnlyMaster(nodes, m) && masterIP == nodes[m].ip
      modifies this`upstream, this`labels
      ensures RolesKept(old(upstream), upstream, nodes) && OnlyListedPods(old(labels), labels, nodes)
      ensures r == Ok || r == Error
      ensures r == Ok ==>
        && upstream == Rewired(old(upstream), nodes, masterIP)
        && labels == Relabelled(old(labels), nodes, masterIP)
    {
      ghost var up, tags := upstream, labels;
      TurnedNone(up, tags, nodes, masterIP);
      for k := 0 to |nodes|
        invariant Turned(up, upstream, tags, labels, nodes, k, masterIP) && RolesKept(up, upstream, nodes)
        invariant OnlyListedPods(tags, labels, nodes)
      {
        AdoptTurn(up, upstream, tags, labels, nodes, k, m);
        PodsByTurning(tags, labels, nodes, k, if nodes[k].ip == masterIP then MASTER else SLAVE);
        var ok := AdoptNode(nodes[k], masterIP);
        if !ok {
          return Error;
        }
      }
      TurnedAll(up, upstream, tags, labels, nodes, masterIP);
      return Ok;
    }

    // One turn of the second loop.
    method AdoptNode(node: Node, masterIP: string) returns (ok: bool)
      requires node.ip in upstream && (node.ip == masterIP ==> upstream[node.ip] == "")
      modifies this`upstream, this`labels
      ensures || upstream == old(upstream)
              || upstream == old(upstream)[node.ip := if node.ip == masterIP then "" else masterIP]
      ensures ok ==> upstream == old(upstream)[node.ip := if node.ip == masterIP then "" else masterIP]
      ensures || labels == old(labels)
              || labels == old(labels)[node.podIndex := if node.ip == masterIP then MASTER else SLAVE]
      ensures ok ==> labels == old(labels)[node.podIndex := if node.ip == masterIP then MASTER else SLAVE]
    {
      if node.ip != masterIP {
        ok := SlaveOfMaster(node, masterIP);
      } else {
        ok := UpdateRole(node.podIndex, MASTER);
      }
    }
  }

  // The first k listed servers were looked at.
  ghost predicate Turned(up: Upstream, up': Upstream, tags: map<int, string>, tags': map<int, string>,
                         nodes: seq<Node>, k: nat, master: string)
    requires k <= |nodes|
  {
    up' == Rewired(up, nodes[..k], master) && tags' == Relabelled(tags, nodes[..k], master)
  }

  lemma {:induction false} TurnedNone(up: Upstream, tags: map<int, string>, nodes: seq<Node>, master: string)
    ensures Turned(up, up, tags, tags, nodes, 0, master)
  {
    assert Ips(nodes[..0]) == {} && PodsOf(nodes[..0]) == {};
  }

  lemma {:induction false} TurnedAll(up: Upstream, up': Upstream, tags: map<int, string>, tags': map<int, string>,
                                     nodes: seq<Node>, master: string)
    requires Turned(up, up', tags, tags', nodes, |nodes|, master)
    ensures up' == Rewired(up, nodes, master) && tags' == Relabelled(tags, nodes, master)
  {
    assert nodes[..|nodes|] == nodes;
  }

  lemma {:induction false} TurnedStep(up: Upstream, up': Upstream, tags: map<int, string>, tags': map<int, string>,
                                      nodes: seq<Node>, k: nat, master: string)
    requires Listing(nodes) && k < |nodes| && Turned(up, up', tags, tags', nodes, k, master)
    ensures var x := nodes[k];
      Turned(up, up'[x.ip := if x.ip == master then "" else master],
             tags, tags'[x.podIndex := if x.ip == master then MASTER else SLAVE], nodes, k + 1, master)
  {
    RewiredSnoc(up, nodes, k, master);
    RelabelledSnoc(tags, nodes, k, master);
  }

  lemma {:induction false} ListedByTurning(a: Upstream, b: Upstream, nodes: seq<Node>, k: nat, from: string)
    requires OnlyListed(a, b, nodes) && k < |nodes| && Ips(nodes) <= a.Keys
    ensures nodes[k].ip in b && OnlyListed(a, b[nodes[k].ip := from], nodes)
  {
    assert nodes[k].ip in Ips(nodes);
  }

  lemma {:induction false} PodsByTurning(a: map<int, string>, b: map<int, string>, nodes: seq<Node>, k: nat,
                                         role: string)
    requires OnlyListedPods(a, b, nodes) && k < |nodes|
    ensures OnlyListedPods(a, b[nodes[k].podIndex := role], nodes)
  {
    assert nodes[k].podIndex in PodsOf(nodes);
  }

  // What a listed server replicates from, seen through the roles that were read.
  lemma {:induction false} StillSlave(a: Upstream, b: Upstream, nodes: seq<Node>, m: nat, k: nat)
    requires Listing(nodes) && Fresh(a, nodes) && OnlyMaster(nodes, m) && RolesKept(a, b, nodes) && k < |nodes|
    ensures nodes[k].ip in b && (b[nodes[k].ip] == "" <==> k == m)
    ensures nodes[k].ip == nodes[m].ip <==> k == m
  {
    assert nodes[k].ip in Ips(nodes);
  }

  // One turn of the second loop keeps its invariants, whether or not it succeeds.
  lemma {:induction false} AdoptTurn(up: Upstream, up': Upstream, tags: map<int, string>, tags': map<int, string>,
                                     nodes: seq<Node>, k: nat, m: nat)
    requires Listing(nodes) && Fresh(up, nodes) && OnlyMaster(nodes, m) && k < |nodes|
    requires Turned(up, up', tags, tags', nodes, k, nodes[m].ip) && RolesKept(up, up', nodes)
    ensures var x, master := nodes[k], nodes[m].ip;
      var next := up'[x.ip := if x.ip == master then "" else master];
      && x.ip in up' && (x.ip == master ==> up'[x.ip] == "") && RolesKept(up, next, nodes)
      && Turned(up, next, tags, tags'[x.podIndex := if x.ip == master then MASTER else SLAVE], nodes, k + 1, master)
  {
    TurnedStep(up, up', tags, tags', nodes, k, nodes[m].ip);
    StillSlave(up, up', nodes, m, k);
    KeptByRewiring(up, up', nodes, m, k);
  }

  lemma {:induction false} PlaceTurn(up: Upstream, up': Upstream, tags: map<int, string>, tags': map<int, string>,
                                     nodes: seq<Node>, i: nat)
    requires Listing(nodes) && Ips(nodes) <= up.Keys && i < |nodes|
    requires Turned(up, up', tags, tags', nodes, i, nodes[0].ip) && OnlyListed(up, up', nodes)
    ensures var x, master := nodes[i], nodes[0].ip;
      var next := up'[x.ip := if x.ip == master then "" else master];
      && x.ip in up' && (i == 0 <==> x.ip == master) && OnlyListed(up, next, nodes)
      && Turned(up, next, tags, tags'[x.podIndex := if x.ip == master then MASTER else SLAVE], nodes, i + 1, master)
  {
    TurnedStep(up, up', tags, tags', nodes, i, nodes[0].ip);
    ListedByTurning(up, up', nodes, i, if nodes[i].ip == nodes[0].ip then "" else nodes[0].ip);
  }

  lemma {:induction false} KeptByRewiring(a: Upstream, b: Upstream, nodes: seq<Node>, m: nat, k: nat)
    requires Listing(nodes) && Fresh(a, nodes) && OnlyMaster(nodes, m) && RolesKept(a, b, nodes)
    requires k < |nodes|
    ensures RolesKept(a, b[nodes[k].ip := if nodes[k].ip == nodes[m].ip then "" else nodes[m].ip], nodes)
  {
    StillSlave(a, b, nodes, m, k);
    assert nodes[k].ip in Ips(nodes);
  }

  predicate OnlyMaster(nodes: seq<Node>, m: nat) {
    m < |nodes| && forall k :: 0 <= k < |nodes| ==> (nodes[k].role == MASTER <==> k == m)
  }

  // Exactly one listed server is a master, the others replicate from it, and the
  // labels agree.
  ghost predicate Star(up: Upstream, labels: map<int, string>, nodes: seq<Node>, m: nat) {
    m < |nodes| && forall k :: 0 <= k < |nodes| ==> StarAt(up, labels, nodes, m, k)
  }

  ghost predicate StarAt(up: Upstream, labels: map<int, string>, nodes: seq<Node>, m: nat, k: nat)
    requires m < |nodes| && k < |nodes|
  {
    && nodes[k].ip in up && up[nodes[k].ip] == (if k == m then "" else nodes[m].ip)
    && nodes[k].podIndex in labels && labels[nodes[k].podIndex] == (if k == m then MASTER else SLAVE)
  }

  lemma {:induction false} RoleAt(nodes: seq<Node>, m: nat, k: nat)
    requires Listing(nodes) && m < |nodes| && k < |nodes|
    ensures RoleOf(nodes, nodes[k].podIndex, nodes[m].ip) == if k == m then MASTER else SLAVE
  {
    if i :| 0 <= i < |nodes| && nodes[i].podIndex == nodes[k].podIndex && nodes[i].ip == nodes[m].ip {
      assert i == k && i == m;
    }
  }

  lemma {:induction false} RewiredIsStar(up: Upstream, labels: map<int, string>, nodes: seq<Node>, m: nat)
    requires Listing(nodes) && m < |nodes|
    ensures Star(Rewired(up, nodes, nodes[m].ip), Relabelled(labels, nodes, nodes[m].ip), nodes, m)
  {
    var up', tags := Rewired(up, nodes, nodes[m].ip), Relabelled(labels, nodes, nodes[m].ip);
    forall k | 0 <= k < |nodes|
      ensures StarAt(up', tags, nodes, m, k)
    {
      RoleAt(nodes, m, k);
      assert nodes[k].ip in Ips(nodes) && nodes[k].podIndex in PodsOf(nodes);
      assert nodes[k].ip == nodes[m].ip <==> k == m;
    }
  }

  // Replaying a Creating pass that was cut short at any point ends in the star it
  // would have built the first time.
  lemma {:induction false} ReplaySameStar(start: Upstream, cut: Upstream, tags: map<int, string>, cutTags: map<int,
                                          string>,
                                          nodes: seq<Node>, master: string)
    requires OnlyListed(start, cut, nodes) && OnlyListedPods(tags, cutTags, nodes) && Ips(nodes) <= start.Keys
    ensures Rewired(cut, nodes, master) == Rewired(start, nodes, master)
    ensures Relabelled(cutTags, nodes, master) == Relabelled(tags, nodes, master)
  {
    var a, b := Relabelled(tags, nodes, master), Relabelled(cutTags, nodes, master);
    forall p | p in b
      ensures p in a && a[p] == b[p]
    {
      assert p in cutTags.Keys + PodsOf(nodes);
      assert p in tags.Keys + PodsOf(nodes);
    }
    assert a.Keys == b.Keys;
  }
}
