// The KVRocks object shared by any number of concurrent reconcilers and failover
// handlers. Each reads the object (possibly a stale copy), works on its own copy
// and writes it back with compare-and-swap on the resource version.
module StatusProtocol {
  import opened Text
  import opened Topology
  import opened FailoverMerge

  datatype Phase = NoPhase | Creating | Running | Failed

  // Status.Status, Status.Version, Status.Topo and whether Status.Shrink is set.
  datatype Status = Status(phase: Phase, version: int, topo: seq<Partition>, shrinking: bool)

  // `rest` stands for everything else: spec, labels, finalizers.
  datatype Object = Object(rest: nat, deleting: bool, status: Status)

  // Who wrote a version of the object.
  datatype Writer = Creator | User | Gate | Cleaner | FailoverSave | RunningMark | StatusSave
                  | MigrateSave | ShrinkSave | Finalizer | Merger | Surrender

  datatype Commit = Commit(obj: Object, writer: Writer)

  // ----- the (Ip, Role) matrix -----

  datatype Cell = Cell(ip: string, role: string)

  function Row(entries: seq<Entry>): (r: seq<Cell>)
    ensures |r| == |entries| && forall j :: 0 <= j < |r| ==> r[j] == Cell(entries[j].ip, entries[j].role)
  {
    seq(|entries|, j requires 0 <= j < |entries| => Cell(entries[j].ip, entries[j].role))
  }

  function NodeRow(nodes: seq<Node>): (r: seq<Cell>)
    ensures |r| == |nodes| && forall j :: 0 <= j < |r| ==> r[j] == Cell(nodes[j].ip, nodes[j].role)
  {
    seq(|nodes|, j requires 0 <= j < |nodes| => Cell(nodes[j].ip, nodes[j].role))
  }

  function Matrix(topo: seq<Partition>): (r: seq<seq<Cell>>)
    ensures |r| == |topo| && forall i :: 0 <= i < |r| ==> r[i] == Row(topo[i].topology)
  {
    seq(|topo|, i requires 0 <= i < |topo| => Row(topo[i].topology))
  }

  function NodeMatrix(sts: seq<seq<Node>>): (r: seq<seq<Cell>>)
    ensures |r| == |sts| && forall i :: 0 <= i < |r| ==> r[i] == NodeRow(sts[i])
  {
    seq(|sts|, i requires 0 <= i < |sts| => NodeRow(sts[i]))
  }

  predicate NoEmptyShard(sts: seq<seq<Node>>) {
    forall i :: 0 <= i < |sts| ==> sts[i] != []
  }

  lemma {:induction false} RowSnoc(entries: seq<Entry>, e: Entry)
    ensures Row(entries + [e]) == Row(entries) + [Cell(e.ip, e.role)]
  {
  }

  lemma {:induction false} SavedRowStep(name: string, nodes: seq<Node>, i: nat)
    requires i < |nodes| && Row(SaveShard(name, Present(nodes)[..i])) == NodeRow(nodes[..i])
    ensures Row(SaveShard(name, Present(nodes)[..i + 1])) == NodeRow(nodes[..i + 1])
  {
    var before, e := SaveShard(name, Present(nodes)[..i]), SaveNode(name, i, nodes[i]);
    SaveShardSnoc(name, Present(nodes), i);
    assert SaveShard(name, Present(nodes)[..i + 1]) == before + [e];
    RowSnoc(before, e);
    NodeRowSnoc(nodes, i);
  }

  lemma {:induction false} NodeRowSnoc(nodes: seq<Node>, i: nat)
    requires i < |nodes|
    ensures NodeRow(nodes[..i + 1]) == NodeRow(nodes[..i]) + [Cell(nodes[i].ip, nodes[i].role)]
  {
  }

  lemma {:induction false} SavedRowTo(name: string, nodes: seq<Node>, n: nat)
    requires n <= |nodes|
    ensures Row(SaveShard(name, Present(nodes)[..n])) == NodeRow(nodes[..n])
  {
    if n > 0 {
      SavedRowTo(name, nodes, n - 1);
      SavedRowStep(name, nodes, n - 1);
    }
  }

  lemma {:induction false} SavedRow(name: string, nodes: seq<Node>)
    ensures Row(SaveShard(name, Present(nodes))) == NodeRow(nodes)
  {
    SavedRowTo(name, nodes, |nodes|);
    assert Present(nodes)[..|nodes|] == Present(nodes) && nodes[..|nodes|] == nodes;
  }

  // Saving nodes saves their matrix. (A shard without nodes would not be saved.)
  lemma {:induction false} SavedMatrix(name: string, sts: seq<seq<Node>>)
    requires NoEmptyShard(sts)
    ensures Matrix(Save(name, PresentAll(sts))) == NodeMatrix(sts)
  {
    var all := PresentAll(sts);
    if sts == [] {
      assert Save(name, all) == [];
    }
    forall i | 0 <= i < |sts|
      ensures |Save(name, all)| == |sts| && Row(Save(name, all)[i].topology) == NodeRow(sts[i])
    {
      SavedPartition(name, all, i);
      SavedRow(StatefulSetName(name, i), sts[i]);
    }
  }

  // ----- version bumps -----

  predicate SameCell(e: Entry, n: Node) {
    e.ip == n.ip && e.role == n.role
  }

  // What ensureVersion looks for: nothing was added, removed, moved or promoted.
  predicate Unchanged(topo: seq<Partition>, sts: seq<seq<Node>>) {
    && topo != [] && |sts| == |topo|
    && forall i :: 0 <= i < |topo| ==>
         && |topo[i].topology| == |sts[i]|
         && forall j :: 0 <= j < |sts[i]| ==> SameCell(topo[i].topology[j], sts[i][j])
  }

  method EnsureVersion(topo: seq<Partition>, sts: seq<seq<Node>>, version: int) returns (v: int)
    ensures v == if Unchanged(topo, sts) then version else version + 1
  {
    v := version + 1;
    if topo == [] || |sts| != |topo| {
      return;
    }
    for i := 0 to |topo|
      invariant v == version + 1
      invariant forall k :: 0 <= k < i ==>
        |topo[k].topology| == |sts[k]| &&
        forall j :: 0 <= j < |sts[k]| ==> SameCell(topo[k].topology[j], sts[k][j])
    {
      if |topo[i].topology| != |sts[i]| {
        return;
      }
      for j := 0 to |sts[i]|
        invariant forall k :: 0 <= k < j ==> SameCell(topo[i].topology[k], sts[i][k])
      {
        if topo[i].topology[j].ip != sts[i][j].ip || topo[i].topology[j].role != sts[i][j].role {
          assert !SameCell(topo[i].topology[j], sts[i][j]);
          return;
        }
      }
    }
    v := version;
  }

  // The version is bumped exactly when nothing was persisted or the matrix is new.
  lemma {:induction false} BumpIffMatrixChanges(topo: seq<Partition>, sts: seq<seq<Node>>)
    ensures Unchanged(topo, sts) <==> topo != [] && Matrix(topo) == NodeMatrix(sts)
  {
    if Unchanged(topo, sts) {
      forall i | 0 <= i < |topo|
        ensures Row(topo[i].topology) == NodeRow(sts[i])
      {
        assert forall j :: 0 <= j < |sts[i]| ==> SameCell(topo[i].topology[j], sts[i][j]);
      }
    }
    if Matrix(topo) == NodeMatrix(sts) {
      forall i | 0 <= i < |topo|
        ensures |sts| == |topo| && |topo[i].topology| == |sts[i]|
        ensures forall j :: 0 <= j < |sts[i]| ==> SameCell(topo[i].topology[j], sts[i][j])
      {
        SameRow(topo[i].topology, sts[i]);
      }
    }
  }

  lemma {:induction false} SameRow(entries: seq<Entry>, nodes: seq<Node>)
    requires Row(entries) == NodeRow(nodes)
    ensures |entries| == |nodes| && forall j :: 0 <= j < |nodes| ==> SameCell(entries[j], nodes[j])
  {
    assert |Row(entries)| == |NodeRow(nodes)|;
    assert forall j :: 0 <= j < |nodes| ==> Row(entries)[j] == NodeRow(nodes)[j];
  }

  // ----- failover flags -----

  predicate EntryFlagged(topo: seq<Partition>, i: int, j: int) {
    0 <= i < |topo| && 0 <= j < |topo[i].topology| && topo[i].topology[j].failover
  }

  predicate NodeFlagged(sts: seq<seq<Node>>, i: int, j: int) {
    0 <= i < |sts| && 0 <= j < |sts[i]| && sts[i][j].failover
  }

  ghost predicate NoFlags(topo: seq<Partition>) {
    forall i, j :: !EntryFlagged(topo, i, j)
  }

  predicate AnyFlag(sts: seq<seq<Node>>) {
    exists i :: 0 <= i < |sts| && Flagged(sts[i])
  }

  lemma {:induction false} SavedShardUnflagged(name: string, nodes: seq<Option<Node>>, j: nat)
    requires j < |SaveShard(name, nodes)|
    ensures !SaveShard(name, nodes)[j].failover
  {
    var n := |nodes| - 1;
    if j < |SaveShard(name, nodes[..n])| {
      SavedShardUnflagged(name, nodes[..n], j);
    }
  }

  lemma {:induction false} SavedUnflagged(name: string, sts: seq<seq<Option<Node>>>)
    ensures NoFlags(Save(name, sts))
  {
    if sts != [] {
      var i := |sts| - 1;
      SavedUnflagged(name, sts[..i]);
      var before, topo := Save(name, sts[..i]), Save(name, sts);
      forall k, j | EntryFlagged(topo, k, j)
        ensures false
      {
        if k < |before| {
          assert EntryFlagged(before, k, j);
        } else {
          SavedShardUnflagged(StatefulSetName(name, i), sts[i], j);
        }
      }
    }
  }

  // ----- the actors -----

  datatype Stage = Gates | Clean | LoadStage | FailoverStage | Roles | SaveStage | Migrate | Migrating
                 | ShrinkStage | SentinelStage | Handler

  // A reconciler or handler at work: the copy of the object it holds, the
  // resource version of that copy, h.stsNodes and h.version.
  datatype Actor =
    | Idle
    | Working(stage: Stage, rv: nat, obj: Object, nodes: seq<seq<Node>>, version: int)

  // What the outside world answers, and which way an actor goes.
  datatype Choice =
    | Read(index: nat, handler: bool)
    | Crash
    | Invalid
    | Relabel(rest: nat)
    | Proceed
    | LoadPods(current: nat, pods: seq<seq<Pod>>)
    | Pings(deletesOk: bool, silent: bool)
    | Assign(nodes: seq<seq<Node>>)
    | Batch(nodes: seq<seq<Node>>)
    | Drop(left: seq<seq<Option<Node>>>)
    | ShardFailed
    | ShardData(partition: nat, shard: seq<ShardNode>, failedIp: string)

  datatype Outcome = Outcome(history: seq<Commit>, actor: Actor)

  // UpdateKVRocks: refused when the object moved on, no new version when nothing
  // changes.
  function Write(h: seq<Commit>, a: Actor, obj: Object, writer: Writer, next: Actor): (r: Outcome)
    requires a.Working? && next.Working?
  {
    if a.rv + 1 != |h| then Outcome(h, Idle)
    else
      var h' := if obj == h[a.rv].obj then h else h + [Commit(obj, writer)];
      Outcome(h', next.(rv := |h'| - 1, obj := obj))
  }

  function Last(r: Outcome): (s: Outcome) {
    Outcome(r.history, Idle)
  }

  function WithStatus(obj: Object, status: Status): (r: Object) {
    obj.(status := status)
  }

  // Reconcile up to handler.Handle().
  function GateStep(h: seq<Commit>, a: Actor, c: Choice): (r: Outcome)
    requires a.Working?
  {
    if a.obj.deleting then
      if c.Relabel? then Last(Write(h, a, a.obj.(rest := c.rest), Finalizer, a)) else Outcome(h, Idle)
    else if a.obj.status.phase == Failed then Outcome(h, Idle)
    else match c
      case Invalid => Last(Write(h, a, WithStatus(a.obj, a.obj.status.(phase := Failed)), Gate, a))
      case Relabel(rest) => Write(h, a, a.obj.(rest := rest), Gate, a)
      case Proceed =>
        if a.obj.status.phase == NoPhase
        then Write(h, a, WithStatus(a.obj, a.obj.status.(phase := Creating)), Gate, a.(stage := Clean))
        else Outcome(h, a.(stage := Clean))
      case _ => Outcome(h, Idle)
  }

  // cleanStatefulSet, when a shrink is pending.
  function CleanStep(h: seq<Commit>, a: Actor): (r: Outcome)
    requires a.Working?
  {
    var s := a.obj.status;
    if !s.shrinking then Outcome(h, a.(stage := LoadStage))
    else Write(h, a, WithStatus(a.obj, s.(shrinking := false, version := s.version + 1)), Cleaner,
               a.(stage := LoadStage))
  }

  // The end of ensureKubernetes.
  function LoadStep(h: seq<Commit>, a: Actor, current: nat, pods: seq<seq<Pod>>): (r: Outcome)
    requires a.Working?
  {
    if current != a.rv || !Fits(a.obj.status.topo, pods) then Outcome(h, Idle)
    else Outcome(h, a.(stage := FailoverStage, nodes := Load(a.obj.status.topo, pods),
                       version := a.obj.status.version))
  }

  function UnflagAll(sts: seq<seq<Node>>): (r: seq<seq<Node>>)
    ensures |r| == |sts| && forall i :: 0 <= i < |r| ==> r[i] == Unflag(sts[i])
  {
    seq(|sts|, i requires 0 <= i < |sts| => Unflag(sts[i]))
  }

  function Saved(name: string, s: Status, sts: seq<seq<Option<Node>>>, version: int): (r: Status) {
    s.(topo := Save(name, sts), version := version)
  }

  // ensureFailover: any flagged node ends the pass, after a save with a new version.
  function FailoverStep(name: string, h: seq<Commit>, a: Actor, deletesOk: bool, silent: bool): (r: Outcome)
    requires a.Working?
  {
    if AnyFlag(a.nodes) then
      if !deletesOk then Outcome(h, Idle)
      else
        var s := Saved(name, a.obj.status, PresentAll(UnflagAll(a.nodes)), a.version + 1);
        Last(Write(h, a, WithStatus(a.obj, s), FailoverSave, a))
    else if silent then Outcome(h, Idle)
    else Outcome(h, a.(stage := Roles))
  }

  // Same pods and flags; roles, ids, masters and slots may differ.
  predicate SamePods(a: seq<seq<Node>>, b: seq<seq<Node>>) {
    && |a| == |b|
    && forall i :: 0 <= i < |a| ==>
         |a[i]| == |b[i]| && forall j :: 0 <= j < |a[i]| ==>
           a[i][j].ip == b[i][j].ip && a[i][j].failover == b[i][j].failover
  }

  // Same matrix; only slots and migrations may differ.
  predicate SameCells(a: seq<seq<Node>>, b: seq<seq<Node>>) {
    && |a| == |b|
    && forall i :: 0 <= i < |a| ==> NodeRow(a[i]) == NodeRow(b[i])
  }

  // initCluster or ensureReplication, then ensureCluster up to marking the object
  // running. A shard without pods makes both index out of range.
  function RolesStep(h: seq<Commit>, a: Actor, nodes: seq<seq<Node>>): (r: Outcome)
    requires a.Working?
  {
    if !SamePods(a.nodes, nodes) || !NoEmptyShard(nodes) then Outcome(h, Idle)
    else Write(h, a, WithStatus(a.obj, a.obj.status.(phase := Running)), RunningMark,
               a.(stage := SaveStage, nodes := nodes))
  }

  // ensureVersion and the save after it.
  function SaveStep(name: string, h: seq<Commit>, a: Actor): (r: Outcome)
    requires a.Working?
  {
    var v := if Unchanged(a.obj.status.topo, a.nodes) then a.version else a.version + 1;
    Write(h, a, WithStatus(a.obj, Saved(name, a.obj.status, PresentAll(a.nodes), v)), StatusSave,
          a.(stage := Migrate, version := v))
  }

  // ensureMigrate: one save after each batch, or a single save when there is
  // nothing to migrate.
  function MigrateStep(name: string, h: seq<Commit>, a: Actor, nodes: seq<seq<Node>>, next: Stage): (r: Outcome)
    requires a.Working?
  {
    if !SameCells(a.nodes, nodes) then Outcome(h, Idle)
    else Write(h, a, WithStatus(a.obj, Saved(name, a.obj.status, PresentAll(nodes), a.version)), MigrateSave,
               a.(stage := next, nodes := nodes))
  }

  // Shards set to nil and nodes set to nil; nothing else.
  predicate Thins(sts: seq<seq<Node>>, left: seq<seq<Option<Node>>>) {
    && |left| == |sts|
    && forall i :: 0 <= i < |sts| ==>
         left[i] == [] ||
         (|left[i]| == |sts[i]| &&
          forall j :: 0 <= j < |sts[i]| ==> left[i][j] == None || left[i][j] == Some(sts[i][j]))
  }

  // ensureShrink, when something has to go.
  function ShrinkStep(name: string, h: seq<Commit>, a: Actor, left: seq<seq<Option<Node>>>): (r: Outcome)
    requires a.Working?
  {
    if !Thins(a.nodes, left) then Outcome(h, Idle)
    else
      var s := Saved(name, a.obj.status, left, a.version).(shrinking := true);
      Last(Write(h, a, WithStatus(a.obj, s), ShrinkSave, a))
  }

  const FAILED := Status(Failed, 0, [], false)

  // handleFailover once the object is read.
  function HandlerStep(h: seq<Commit>, a: Actor, c: Choice): (r: Outcome)
    requires a.Working?
  {
    var s := a.obj.status;
    if a.obj.deleting || s.phase == Failed then Outcome(h, Idle)
    else match c
      case ShardFailed => Last(Write(h, a, WithStatus(a.obj, FAILED), Surrender, a))
      case ShardData(p, shard, ip) =>
        if p >= |s.topo| then Outcome(h, Idle)
        else if FirstMaster(shard) == "" then Last(Write(h, a, WithStatus(a.obj, FAILED), Surrender, a))
        else
          var merged := s.topo[p].(topology := Merge(s.topo[p].topology, shard, FirstMaster(shard), ip));
          var s' := s.(topo := s.topo[p := merged], version := s.version + 1);
          Last(Write(h, a, WithStatus(a.obj, s'), Merger, a))
      case _ => Outcome(h, Idle)
  }

  function ActorStep(name: string, h: seq<Commit>, a: Actor, c: Choice): (r: Outcome) {
    match a
    case Idle =>
      if c.Read? && c.index < |h|
      then Outcome(h, Working(if c.handler then Handler else Gates, c.index, h[c.index].obj, [], 0))
      else Outcome(h, Idle)
    case Working(stage, _, _, _, _) =>
      match stage
      case Gates => GateStep(h, a, c)
      case Clean => if c.Proceed? then CleanStep(h, a) else Outcome(h, Idle)
      case LoadStage => if c.LoadPods? then LoadStep(h, a, c.current, c.pods) else Outcome(h, Idle)
      case FailoverStage => if c.Pings? then FailoverStep(name, h, a, c.deletesOk, c.silent) else Outcome(h, Idle)
      case Roles => if c.Assign? then RolesStep(h, a, c.nodes) else Outcome(h, Idle)
      case SaveStage => if c.Proceed? then SaveStep(name, h, a) else Outcome(h, Idle)
      case Migrate =>
        if c.Batch? then MigrateStep(name, h, a, c.nodes, Migrating)
        else if c.Proceed? then MigrateStep(name, h, a, a.nodes, ShrinkStage) else Outcome(h, Idle)
      case Migrating => if c.Batch? then MigrateStep(name, h, a, c.nodes, Migrating) else Outcome(h, Idle)
      case ShrinkStage =>
        if c.Drop? then ShrinkStep(name, h, a, c.left)
        else if c.Proceed? then Outcome(h, a.(stage := SentinelStage)) else Outcome(h, Idle)
      case SentinelStage =>
        if c.Relabel? then Last(Write(h, a, a.obj.(rest := c.rest), Finalizer, a)) else Outcome(h, Idle)
      case Handler => HandlerStep(h, a, c)
  }

  // Entries that differ in nothing but the migrations a user may add.
  predicate SameButMigrate(a: seq<Partition>, b: seq<Partition>) {
    && |a| == |b|
    && forall i :: 0 <= i < |a| ==>
         |a[i].topology| == |b[i].topology| &&
         forall j :: 0 <= j < |a[i].topology| ==>
           a[i].topology[j] == b[i].topology[j].(migrate := a[i].topology[j].migrate)
  }

  // A user edit: spec, deletion, and migrations in the status.
  predicate UserMay(a: Object, b: Object) {
    && b.status == a.status.(topo := b.status.topo)
    && SameButMigrate(a.status.topo, b.status.topo)
  }

  datatype Event = Act(who: int, choice: Choice) | Edit(obj: Object)

  datatype State = State(history: seq<Commit>, actors: map<int, Actor>)

  function Step(name: string, s: State, e: Event): (r: State) {
    match e
    case Act(who, choice) =>
      var a := if who in s.actors then s.actors[who] else Idle;
      var o := ActorStep(name, s.history, a, choice);
      State(o.history, s.actors[who := o.actor])
    case Edit(obj) =>
      if s.history != [] && UserMay(s.history[|s.history| - 1].obj, obj)
      then s.(history := s.history + [Commit(obj, User)]) else s
  }

  function Run(name: string, s: State, events: seq<Event>): (r: State)
    decreases |events|
  {
    if events == [] then s else Run(name, Step(name, s, events[0]), events[1..])
  }

  function Start(obj: Object): (s: State) {
    State([Commit(obj, Creator)], map[])
  }
}
