// What a reconciler or failover handler persists when its write is accepted, said of
// the object and not of the step that made it.
module StatusWrites {
  import opened Text
  import opened Topology
  import opened FailoverMerge
  import opened StatusProtocol

  // The actor holds the current object.
  ghost predicate Current(h: seq<Commit>, a: Actor) {
    a.Working? && a.rv + 1 == |h| && a.obj == h[a.rv].obj
  }

  // The object persisted last.
  function Latest(h: seq<Commit>): (r: Object)
    requires h != []
  {
    h[|h| - 1].obj
  }

  // Nothing but the status differs.
  predicate SameRest(a: Object, b: Object) {
    a.rest == b.rest && a.deleting == b.deleting
  }

  // ----- the failover handler -----

  // Entry `e` after the failover of `ip` in a shard whose first master is node m.
  ghost predicate EntryMerged(e: Entry, now: Entry, shard: seq<ShardNode>, m: nat, ip: string)
    requires m < |shard|
  {
    && now.pod == e.pod && now.nodeId == e.nodeId && now.ip == e.ip && now.slots == e.slots && now.migrate == e.migrate
    && (e.ip == ip ==> now.failover)
    && (forall k :: 0 <= k < |shard| && shard[k].id == e.nodeId ==>
          && now.role == shard[k].role && (e.ip != ip ==> !now.failover)
          && now.masterId == if shard[k].role == SLAVE then shard[m].id else e.masterId)
    && ((forall k :: 0 <= k < |shard| ==> shard[k].id != e.nodeId) ==>
          now.role == e.role && now.masterId == e.masterId && (e.ip != ip ==> now.failover == e.failover))
  }

  lemma {:induction false} MergedEntry(e: Entry, shard: seq<ShardNode>, m: nat, ip: string)
    requires UniqueIds(shard) && m < |shard|
    ensures EntryMerged(e, MergeEntry(e, shard, shard[m].id, ip), shard, m, ip)
  {
    MergeEntryIs(e, shard, shard[m].id, ip);
    var found := Match(e, shard);
    if found.Some? {
      var j :| 0 <= j < |shard| && shard[j] == found.value;
      assert forall k :: 0 <= k < |shard| && shard[k].id == e.nodeId ==> k == j;
    }
  }

  ghost predicate PartitionMerged(a: Partition, b: Partition, shard: seq<ShardNode>, m: nat, ip: string)
    requires m < |shard|
  {
    && b.name == a.name && b.shard == a.shard && |b.topology| == |a.topology|
    && forall j :: 0 <= j < |a.topology| ==> EntryMerged(a.topology[j], b.topology[j], shard, m, ip)
  }

  // A handler that finds a master merges exactly the partition of its message: every
  // entry with the failed address is flagged, every entry the controller knows takes
  // the controller's role, slaves among them name the first master, and all else
  // stays. The version rises by one.
  lemma {:induction false} HandlerMerges(h: seq<Commit>, a: Actor, p: nat, shard: seq<ShardNode>, m: nat, ip: string)
    requires Current(h, a) && !a.obj.deleting && a.obj.status.phase != Failed && p < |a.obj.status.topo|
    requires UniqueIds(shard) && FirstMasterIsAt(shard, m) && shard[m].id != ""
    ensures var r := HandlerStep(h, a, ShardData(p, shard, ip));
            && |r.history| == |h| + 1 && h <= r.history && r.history[|h|].writer == Merger
            && SameRest(a.obj, Latest(r.history))
            && var s, t := a.obj.status, Latest(r.history).status;
               && t.phase == s.phase && t.shrinking == s.shrinking && t.version == s.version + 1
               && |t.topo| == |s.topo| && PartitionMerged(s.topo[p], t.topo[p], shard, m, ip)
               && forall q :: 0 <= q < |s.topo| && q != p ==> t.topo[q] == s.topo[q]
  {
    FirstMasterFound(shard, m);
    var entries := a.obj.status.topo[p].topology;
    forall j | 0 <= j < |entries|
      ensures EntryMerged(entries[j], MergeEntry(entries[j], shard, shard[m].id, ip), shard, m, ip)
    {
      MergedEntry(entries[j], shard, m, ip);
    }
  }

  // A handler writes nothing to an object that is Failed or being deleted, for a
  // partition that is not there, or from a copy that is not current.
  lemma {:induction false} HandlerSkips(h: seq<Commit>, a: Actor, c: Choice)
    requires a.Working? && (c.ShardFailed? || c.ShardData?)
    requires || a.obj.deleting || a.obj.status.phase == Failed || a.rv + 1 != |h|
             || (c.ShardData? && c.partition >= |a.obj.status.topo|)
    ensures HandlerStep(h, a, c).history == h
  {
  }

  // Without a master, or when the failover of the shard fails, the object is given up:
  // Failed, with nothing left of its topology.
  lemma {:induction false} HandlerGivesUp(h: seq<Commit>, a: Actor, c: Choice)
    requires Current(h, a) && !a.obj.deleting && a.obj.status.phase != Failed
    requires c.ShardFailed? || (c.ShardData? && c.partition < |a.obj.status.topo| &&
                                forall k :: 0 <= k < |c.shard| ==> c.shard[k].role != MASTER)
    ensures var r := HandlerStep(h, a, c);
            && |r.history| == |h| + 1 && r.history[|h|].writer == Surrender
            && SameRest(a.obj, Latest(r.history))
            && Latest(r.history).status.phase == Failed && Latest(r.history).status.topo == []
            && !Latest(r.history).status.shrinking
  {
    if c.ShardData? {
      NoMasterFound(c.shard);
    }
  }

  // ----- the reconciler -----

  // A topology that gives every node back when it is loaded on as many pods.
  ghost predicate Persists(topo: seq<Partition>, nodes: seq<seq<Node>>) {
    forall pods: seq<seq<Pod>> :: SameCounts(nodes, pods) ==>
      && Fits(topo, pods)
      && forall i, j :: 0 <= i < |nodes| && 0 <= j < |nodes[i]| ==>
           Load(topo, pods)[i][j] == Restored(nodes[i][j], pods[i][j])
  }

  predicate SameCounts(nodes: seq<seq<Node>>, pods: seq<seq<Pod>>) {
    |pods| == |nodes| && forall i :: 0 <= i < |nodes| ==> |pods[i]| == |nodes[i]|
  }

  predicate AllNodesPrintable(nodes: seq<seq<Node>>) {
    forall i, j :: 0 <= i < |nodes| && 0 <= j < |nodes[i]| ==> Printable(nodes[i][j])
  }

  lemma {:induction false} SavePersists(name: string, nodes: seq<seq<Node>>)
    requires NoEmptyShard(nodes) && AllNodesPrintable(nodes)
    ensures Persists(Save(name, PresentAll(nodes)), nodes)
  {
    forall pods: seq<seq<Pod>> | SameCounts(nodes, pods)
      ensures var topo := Save(name, PresentAll(nodes));
              && Fits(topo, pods)
              && forall i, j :: 0 <= i < |nodes| && 0 <= j < |nodes[i]| ==>
                   Load(topo, pods)[i][j] == Restored(nodes[i][j], pods[i][j])
    {
      SaveLoad(name, nodes, pods);
    }
  }

  // The save after ensureVersion persists the nodes; the version rises by one unless
  // addresses, roles and counts are those persisted before.
  lemma {:induction false} SaveWrites(name: string, h: seq<Commit>, a: Actor)
    requires Current(h, a) && a.version == a.obj.status.version
    requires NoEmptyShard(a.nodes) && AllNodesPrintable(a.nodes)
    ensures var r := SaveStep(name, h, a);
            && r.history != [] && SameRest(a.obj, Latest(r.history))
            && var s, t := a.obj.status, Latest(r.history).status;
               && t.phase == s.phase && t.shrinking == s.shrinking && Persists(t.topo, a.nodes)
               && t.version == s.version + if s.topo != [] && Matrix(s.topo) == NodeMatrix(a.nodes) then 0 else 1
  {
    BumpIffMatrixChanges(a.obj.status.topo, a.nodes);
    var v := if Unchanged(a.obj.status.topo, a.nodes) then a.version else a.version + 1;
    var obj := WithStatus(a.obj, Saved(name, a.obj.status, PresentAll(a.nodes), v));
    WritePersists(h, a, obj, StatusSave, a);
    assert Latest(SaveStep(name, h, a).history) == obj;
    SavePersists(name, a.nodes);
  }

  // A write from the current copy leaves the written object as the latest.
  lemma {:induction false} WritePersists(h: seq<Commit>, a: Actor, obj: Object, writer: Writer, next: Actor)
    requires Current(h, a) && next.Working?
    ensures var r := Write(h, a, obj, writer, next); r.history != [] && Latest(r.history) == obj
  {
  }

  // A role or an address that is not the persisted one makes the version rise.
  lemma {:induction false} ChangeIsSeen(topo: seq<Partition>, sts: seq<seq<Node>>, i: nat, j: nat)
    requires i < |topo| && j < |topo[i].topology| && i < |sts| && j < |sts[i]|
    requires topo[i].topology[j].role != sts[i][j].role || topo[i].topology[j].ip != sts[i][j].ip
    ensures !Unchanged(topo, sts)
  {
    assert !SameCell(topo[i].topology[j], sts[i][j]);
  }

  // A migration's save persists the nodes and keeps the version.
  lemma {:induction false} MigrateWrites(name: string, h: seq<Commit>, a: Actor, nodes: seq<seq<Node>>, next: Stage)
    requires Current(h, a) && a.version == a.obj.status.version && SameCells(a.nodes, nodes)
    requires NoEmptyShard(nodes) && AllNodesPrintable(nodes)
    ensures var r := MigrateStep(name, h, a, nodes, next);
            && r.history != [] && SameRest(a.obj, Latest(r.history))
            && var s, t := a.obj.status, Latest(r.history).status;
               t.phase == s.phase && t.shrinking == s.shrinking && t.version == s.version && Persists(t.topo, nodes)
  {
    SavePersists(name, nodes);
  }

  // ensureFailover's save persists the nodes with their flags cleared and a new version.
  lemma {:induction false} FailoverWrites(name: string, h: seq<Commit>, a: Actor, silent: bool)
    requires Current(h, a) && a.version == a.obj.status.version && AnyFlag(a.nodes)
    requires NoEmptyShard(a.nodes) && AllNodesPrintable(a.nodes)
    ensures var r := FailoverStep(name, h, a, true, silent);
            && r.history != [] && SameRest(a.obj, Latest(r.history))
            && var s, t := a.obj.status, Latest(r.history).status;
               && t.phase == s.phase && t.shrinking == s.shrinking && t.version == s.version + 1
               && Persists(t.topo, UnflagAll(a.nodes))
  {
    var cleared := UnflagAll(a.nodes);
    forall i | 0 <= i < |cleared|
      ensures cleared[i] != []
    {
      assert |Unflag(a.nodes[i])| == |a.nodes[i]|;
    }
    forall i, j | 0 <= i < |cleared| && 0 <= j < |cleared[i]|
      ensures Printable(cleared[i][j])
    {
      assert Printable(a.nodes[i][j]);
    }
    SavePersists(name, cleared);
  }

  // A shrink's save marks the shrink pending and keeps the version.
  lemma {:induction false} ShrinkWrites(name: string, h: seq<Commit>, a: Actor, left: seq<seq<Option<Node>>>)
    requires Current(h, a) && a.version == a.obj.status.version && Thins(a.nodes, left)
    ensures var r := ShrinkStep(name, h, a, left);
            && r.history != [] && SameRest(a.obj, Latest(r.history))
            && var s, t := a.obj.status, Latest(r.history).status;
               t.phase == s.phase && t.shrinking && t.version == s.version && t.topo == Save(name, left)
  {
  }

  // The clean-up's write ends the shrink with a new version and leaves the topology;
  // with nothing pending nothing is written.
  lemma {:induction false} CleanWrites(h: seq<Commit>, a: Actor)
    requires Current(h, a)
    ensures var r := CleanStep(h, a);
            && r.history != [] && SameRest(a.obj, Latest(r.history)) && !Latest(r.history).status.shrinking
            && (!a.obj.status.shrinking ==> r.history == h)
            && var s, t := a.obj.status, Latest(r.history).status;
               && t.phase == s.phase && t.topo == s.topo
               && t.version == s.version + if s.shrinking then 1 else 0
  {
  }

  // Before a pass: an invalid spec makes the object Failed, a new object becomes
  // Creating; both keep the rest of the status. A Failed object is left alone.
  lemma {:induction false} GateWrites(h: seq<Commit>, a: Actor)
    requires Current(h, a) && !a.obj.deleting
    ensures var s := a.obj.status;
            && (s.phase == Failed ==> GateStep(h, a, Invalid).history == GateStep(h, a, Proceed).history == h)
            && (s.phase != Failed ==>
                  Latest(GateStep(h, a, Invalid).history) == WithStatus(a.obj, s.(phase := Failed)))
            && (s.phase != Failed ==>
                  var phase := if s.phase == NoPhase then Creating else s.phase;
                  Latest(GateStep(h, a, Proceed).history) == WithStatus(a.obj, s.(phase := phase)))
  {
  }

  // Once roles are assigned the object is Running and otherwise as it was.
  lemma {:induction false} RolesWrites(h: seq<Commit>, a: Actor, nodes: seq<seq<Node>>)
    requires Current(h, a) && SamePods(a.nodes, nodes) && NoEmptyShard(nodes)
    ensures var r := RolesStep(h, a, nodes);
            && r.history != [] && Latest(r.history) == WithStatus(a.obj, a.obj.status.(phase := Running))
            && r.actor.Working? && r.actor.nodes == nodes
  {
  }

  // The load gives every pod with an entry that entry's role, id, master, slots and
  // flag, and works on from the persisted version.
  lemma {:induction false} LoadReads(h: seq<Commit>, a: Actor, pods: seq<seq<Pod>>, i: nat, j: nat)
    requires Current(h, a) && Fits(a.obj.status.topo, pods)
    requires i < |a.obj.status.topo| && i < |pods| && j < |a.obj.status.topo[i].topology|
    ensures var r := LoadStep(h, a, a.rv, pods);
            && r.history == h && r.actor.Working? && r.actor.version == a.obj.status.version
            && |r.actor.nodes| == |pods| && |r.actor.nodes[i]| == |pods[i]| && j < |pods[i]|
            && var n, e := r.actor.nodes[i][j], a.obj.status.topo[i].topology[j];
               && n.ip == pods[i][j].ip && n.podIndex == pods[i][j].ordinal && n.role == e.role && n.nodeId == e.nodeId
               && n.master == e.masterId && n.failover == e.failover
    ensures forall current :: current != a.rv ==> LoadStep(h, a, current, pods).actor == Idle
  {
  }

  // A merge reaches the next reconciler: the pod whose entry had the failed address is
  // loaded with its flag set, and a pod the controller knows in the controller's role.
  lemma {:induction false} MergeIsLoaded(h: seq<Commit>, a: Actor, p: nat, shard: seq<ShardNode>, m: nat, ip: string,
                                         b: Actor, pods: seq<seq<Pod>>, j: nat)
    requires Current(h, a) && !a.obj.deleting && a.obj.status.phase != Failed && p < |a.obj.status.topo|
    requires UniqueIds(shard) && FirstMasterIsAt(shard, m) && shard[m].id != ""
    requires Current(HandlerStep(h, a, ShardData(p, shard, ip)).history, b) && Fits(b.obj.status.topo, pods)
    requires p < |pods| && j < |a.obj.status.topo[p].topology|
    ensures var after := HandlerStep(h, a, ShardData(p, shard, ip)).history;
            var r, e := LoadStep(after, b, b.rv, pods), a.obj.status.topo[p].topology[j];
            && r.actor.Working? && p < |r.actor.nodes| && j < |r.actor.nodes[p]|
            && (e.ip == ip ==> r.actor.nodes[p][j].failover)
            && forall k :: 0 <= k < |shard| && shard[k].id == e.nodeId ==> r.actor.nodes[p][j].role == shard[k].role
  {
    HandlerMerges(h, a, p, shard, m, ip);
    LoadReads(HandlerStep(h, a, ShardData(p, shard, ip)).history, b, pods, p, j);
  }
}
