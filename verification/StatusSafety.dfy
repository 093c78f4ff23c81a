// What every interleaving of reconcilers, failover handlers and user edits keeps.
module StatusSafety {
  import opened Text
  import opened Topology
  import opened FailoverMerge
  import opened StatusProtocol

  // ----- from one persisted object to the next -----

  // Failed stays; before that the version never falls, a pending shrink ends only
  // with a new version, and the matrix moves only with the version or with the
  // start of a shrink.
  ghost predicate Follows(a: Object, b: Object) {
    && (a.status.phase == Failed ==> b.status.phase == Failed)
    && (b.status.phase != Failed ==>
          && a.status.version <= b.status.version
          && (a.status.version == b.status.version ==>
                && (a.status.shrinking ==> b.status.shrinking)
                && (a.status.shrinking == b.status.shrinking ==> Matrix(a.status.topo) == Matrix(b.status.topo))))
  }

  ghost predicate SameFlags(a: seq<Partition>, b: seq<Partition>) {
    forall i, j :: EntryFlagged(a, i, j) <==> EntryFlagged(b, i, j)
  }

  // A save writes no flag. Apart from ensureFailover's own save it also starts
  // from a topology without flags, so no flag is lost by it. Every other write of
  // a reconciler or user leaves the flags alone.
  ghost predicate FlagsKept(a: Object, c: Commit) {
    var before, after := a.status.topo, c.obj.status.topo;
    match c.writer
    case FailoverSave => NoFlags(after)
    case StatusSave => NoFlags(before) && NoFlags(after)
    case MigrateSave => NoFlags(before) && NoFlags(after)
    case ShrinkSave => NoFlags(before) && NoFlags(after)
    case Merger => true
    case Surrender => true
    case _ => SameFlags(before, after)
  }

  ghost predicate StepOk(a: Object, c: Commit) {
    Follows(a, c.obj) && FlagsKept(a, c)
  }

  ghost predicate HistoryOk(h: seq<Commit>) {
    h != [] && forall i :: 0 <= i < |h| - 1 ==> StepOk(h[i].obj, h[i + 1])
  }

  // ----- what an actor knows at each stage -----

  // Every flagged entry was loaded as a flagged node.
  ghost predicate FlagsLoaded(topo: seq<Partition>, sts: seq<seq<Node>>) {
    forall i, j :: EntryFlagged(topo, i, j) ==> NodeFlagged(sts, i, j)
  }

  ghost predicate StageOk(a: Actor)
    requires a.Working?
  {
    var s := a.obj.status;
    match a.stage
    case Gates => true
    case Handler => true
    case Clean => s.phase != Failed
    case LoadStage => s.phase != Failed && !s.shrinking
    case FailoverStage => s.phase != Failed && !s.shrinking && a.version == s.version && FlagsLoaded(s.topo, a.nodes)
    case Roles => s.phase != Failed && !s.shrinking && a.version == s.version && NoFlags(s.topo)
    case SaveStage =>
      && s.phase != Failed && !s.shrinking && a.version == s.version && NoFlags(s.topo)
      && NoEmptyShard(a.nodes)
    case _ =>
      && s.phase != Failed && !s.shrinking && a.version == s.version && NoFlags(s.topo)
      && NoEmptyShard(a.nodes) && Matrix(s.topo) == NodeMatrix(a.nodes)
  }

  ghost predicate ActorOk(h: seq<Commit>, a: Actor) {
    a.Working? ==> a.rv < |h| && a.obj == h[a.rv].obj && StageOk(a)
  }

  ghost predicate StateOk(s: State) {
    HistoryOk(s.history) && forall who :: who in s.actors ==> ActorOk(s.history, s.actors[who])
  }

  // The history only grows, and the actor still knows what it must.
  ghost predicate Good(h: seq<Commit>, r: Outcome) {
    HistoryOk(r.history) && h <= r.history && ActorOk(r.history, r.actor)
  }

  // A write is good when it would be a good step from the copy it started from.
  lemma {:induction false} WriteGood(h: seq<Commit>, a: Actor, obj: Object, writer: Writer, next: Actor)
    requires HistoryOk(h) && ActorOk(h, a) && a.Working? && next.Working?
    requires StepOk(a.obj, Commit(obj, writer)) && StageOk(next.(obj := obj))
    ensures Good(h, Write(h, a, obj, writer, next))
  {
    var r := Write(h, a, obj, writer, next);
    if a.rv + 1 == |h| && obj != h[a.rv].obj {
      forall i | 0 <= i < |r.history| - 1
        ensures StepOk(r.history[i].obj, r.history[i + 1])
      {
        if i < |h| - 1 {
          assert StepOk(h[i].obj, h[i + 1]);
        }
      }
    }
    if r.actor.Working? {
      StageIgnoresVersion(next, r.actor);
    }
  }

  lemma {:induction false} StageIgnoresVersion(next: Actor, b: Actor)
    requires next.Working? && b.Working? && StageOk(next.(obj := b.obj)) && b == next.(obj := b.obj, rv := b.rv)
    ensures StageOk(b)
  {
  }

  // ----- the stages -----

  lemma {:induction false} GateGood(h: seq<Commit>, a: Actor, c: Choice)
    requires HistoryOk(h) && ActorOk(h, a) && a.Working? && a.stage == Gates
    ensures Good(h, GateStep(h, a, c))
  {
    if a.obj.deleting {
      if c.Relabel? {
        WriteGood(h, a, a.obj.(rest := c.rest), Finalizer, a);
      }
    } else if a.obj.status.phase != Failed {
      match c {
        case Invalid => WriteGood(h, a, WithStatus(a.obj, a.obj.status.(phase := Failed)), Gate, a);
        case Relabel(rest) => WriteGood(h, a, a.obj.(rest := rest), Gate, a);
        case Proceed =>
          if a.obj.status.phase == NoPhase {
            WriteGood(h, a, WithStatus(a.obj, a.obj.status.(phase := Creating)), Gate, a.(stage := Clean));
          }
        case _ =>
      }
    }
  }

  lemma {:induction false} CleanGood(h: seq<Commit>, a: Actor)
    requires HistoryOk(h) && ActorOk(h, a) && a.Working? && a.stage == Clean
    ensures Good(h, CleanStep(h, a))
  {
    var s := a.obj.status;
    if s.shrinking {
      WriteGood(h, a, WithStatus(a.obj, s.(shrinking := false, version := s.version + 1)), Cleaner,
                a.(stage := LoadStage));
    }
  }

  lemma {:induction false} LoadedFlags(topo: seq<Partition>, pods: seq<seq<Pod>>)
    requires Fits(topo, pods)
    ensures FlagsLoaded(topo, Load(topo, pods))
  {
    forall i, j | EntryFlagged(topo, i, j)
      ensures NodeFlagged(Load(topo, pods), i, j)
    {
      assert Load(topo, pods)[i] == LoadShard(topo[i].topology, pods[i]);
      assert LoadShard(topo[i].topology, pods[i])[j] == LoadNode(pods[i][j], topo[i].topology[j]);
    }
  }

  lemma {:induction false} LoadGood(h: seq<Commit>, a: Actor, current: nat, pods: seq<seq<Pod>>)
    requires HistoryOk(h) && ActorOk(h, a) && a.Working? && a.stage == LoadStage
    ensures Good(h, LoadStep(h, a, current, pods))
  {
    if Fits(a.obj.status.topo, pods) {
      LoadedFlags(a.obj.status.topo, pods);
    }
  }

  lemma {:induction false} NoFlagLeft(topo: seq<Partition>, sts: seq<seq<Node>>)
    requires FlagsLoaded(topo, sts) && !AnyFlag(sts)
    ensures NoFlags(topo)
  {
    forall i, j | EntryFlagged(topo, i, j)
      ensures false
    {
      assert NodeFlagged(sts, i, j);
      assert Flagged(sts[i]);
    }
  }

  lemma {:induction false} FailoverGood(name: string, h: seq<Commit>, a: Actor, deletesOk: bool, silent: bool)
    requires HistoryOk(h) && ActorOk(h, a) && a.Working? && a.stage == FailoverStage
    ensures Good(h, FailoverStep(name, h, a, deletesOk, silent))
  {
    if !AnyFlag(a.nodes) {
      NoFlagLeft(a.obj.status.topo, a.nodes);
    } else if deletesOk {
      var left := PresentAll(UnflagAll(a.nodes));
      var s := Saved(name, a.obj.status, left, a.version + 1);
      SavedUnflagged(name, left);
      WriteGood(h, a, WithStatus(a.obj, s), FailoverSave, a.(stage := Gates));
    }
  }

  lemma {:induction false} RolesGood(h: seq<Commit>, a: Actor, nodes: seq<seq<Node>>)
    requires HistoryOk(h) && ActorOk(h, a) && a.Working? && a.stage == Roles
    ensures Good(h, RolesStep(h, a, nodes))
  {
    if NoEmptyShard(nodes) {
      WriteGood(h, a, WithStatus(a.obj, a.obj.status.(phase := Running)), RunningMark,
                a.(stage := SaveStage, nodes := nodes));
    }
  }

  lemma {:induction false} SavedFacts(name: string, s: Status, nodes: seq<seq<Node>>, v: int)
    requires NoEmptyShard(nodes)
    ensures NoFlags(Saved(name, s, PresentAll(nodes), v).topo)
    ensures Matrix(Saved(name, s, PresentAll(nodes), v).topo) == NodeMatrix(nodes)
  {
    SavedUnflagged(name, PresentAll(nodes));
    SavedMatrix(name, nodes);
  }

  lemma {:induction false} SaveFollows(name: string, obj: Object, nodes: seq<seq<Node>>, v: int)
    requires obj.status.phase != Failed && NoFlags(obj.status.topo) && NoEmptyShard(nodes)
    requires v == obj.status.version + if Unchanged(obj.status.topo, nodes) then 0 else 1
    ensures StepOk(obj, Commit(WithStatus(obj, Saved(name, obj.status, PresentAll(nodes), v)), StatusSave))
  {
    SavedFacts(name, obj.status, nodes, v);
    BumpIffMatrixChanges(obj.status.topo, nodes);
  }

  lemma {:induction false} SaveGood(name: string, h: seq<Commit>, a: Actor)
    requires HistoryOk(h) && ActorOk(h, a) && a.Working? && a.stage == SaveStage
    ensures Good(h, SaveStep(name, h, a))
  {
    var v := if Unchanged(a.obj.status.topo, a.nodes) then a.version else a.version + 1;
    var obj := WithStatus(a.obj, Saved(name, a.obj.status, PresentAll(a.nodes), v));
    var next := a.(stage := Migrate, version := v);
    assert StepOk(a.obj, Commit(obj, StatusSave)) by {
      SaveFollows(name, a.obj, a.nodes, v);
    }
    assert StageOk(next.(obj := obj)) by {
      SavedFacts(name, a.obj.status, a.nodes, v);
    }
    WriteGood(h, a, obj, StatusSave, next);
  }

  lemma {:induction false} SameCellsMatrix(a: seq<seq<Node>>, b: seq<seq<Node>>)
    requires SameCells(a, b) && NoEmptyShard(a)
    ensures NodeMatrix(a) == NodeMatrix(b) && NoEmptyShard(b)
  {
    forall i | 0 <= i < |b|
      ensures b[i] != []
    {
      assert |NodeRow(a[i])| == |NodeRow(b[i])|;
    }
  }

  lemma {:induction false} MigrateGood(name: string, h: seq<Commit>, a: Actor, nodes: seq<seq<Node>>, next: Stage)
    requires HistoryOk(h) && ActorOk(h, a) && a.Working? && (a.stage == Migrate || a.stage == Migrating)
    requires next == Migrating || next == ShrinkStage
    ensures Good(h, MigrateStep(name, h, a, nodes, next))
  {
    if SameCells(a.nodes, nodes) {
      SameCellsMatrix(a.nodes, nodes);
      SavedFacts(name, a.obj.status, nodes, a.version);
      WriteGood(h, a, WithStatus(a.obj, Saved(name, a.obj.status, PresentAll(nodes), a.version)), MigrateSave,
                a.(stage := next, nodes := nodes));
    }
  }

  lemma {:induction false} ShrinkGood(name: string, h: seq<Commit>, a: Actor, left: seq<seq<Option<Node>>>)
    requires HistoryOk(h) && ActorOk(h, a) && a.Working? && a.stage == ShrinkStage
    ensures Good(h, ShrinkStep(name, h, a, left))
  {
    var s := Saved(name, a.obj.status, left, a.version).(shrinking := true);
    SavedUnflagged(name, left);
    WriteGood(h, a, WithStatus(a.obj, s), ShrinkSave, a.(stage := Gates));
  }

  lemma {:induction false} SentinelGood(h: seq<Commit>, a: Actor, rest: nat)
    requires HistoryOk(h) && ActorOk(h, a) && a.Working? && a.stage == SentinelStage
    ensures Good(h, Write(h, a, a.obj.(rest := rest), Finalizer, a))
  {
    WriteGood(h, a, a.obj.(rest := rest), Finalizer, a);
  }

  lemma {:induction false} HandlerGood(h: seq<Commit>, a: Actor, c: Choice)
    requires HistoryOk(h) && ActorOk(h, a) && a.Working? && a.stage == Handler
    ensures Good(h, HandlerStep(h, a, c))
  {
    var s := a.obj.status;
    if !a.obj.deleting && s.phase != Failed {
      match c {
        case ShardFailed => WriteGood(h, a, WithStatus(a.obj, FAILED), Surrender, a);
        case ShardData(p, shard, ip) =>
          if p < |s.topo| {
            if FirstMaster(shard) == "" {
              WriteGood(h, a, WithStatus(a.obj, FAILED), Surrender, a);
            } else {
              var merged := s.topo[p].(topology := Merge(s.topo[p].topology, shard, FirstMaster(shard), ip));
              WriteGood(h, a, WithStatus(a.obj, s.(topo := s.topo[p := merged], version := s.version + 1)), Merger, a);
            }
          }
        case _ =>
      }
    }
  }

  // ----- steps and runs -----

  lemma {:induction false} ActorGood(name: string, h: seq<Commit>, a: Actor, c: Choice)
    requires HistoryOk(h) && ActorOk(h, a)
    ensures Good(h, ActorStep(name, h, a, c))
  {
    match a
    case Idle =>
    case Working(stage, _, _, _, _) =>
      match stage {
        case Gates => GateGood(h, a, c);
        case Clean => CleanGood(h, a);
        case LoadStage => if c.LoadPods? { LoadGood(h, a, c.current, c.pods); }
        case FailoverStage => if c.Pings? { FailoverGood(name, h, a, c.deletesOk, c.silent); }
        case Roles => if c.Assign? { RolesGood(h, a, c.nodes); }
        case SaveStage => SaveGood(name, h, a);
        case Migrate =>
          if c.Batch? { MigrateGood(name, h, a, c.nodes, Migrating); }
          else { MigrateGood(name, h, a, a.nodes, ShrinkStage); }
        case Migrating => if c.Batch? { MigrateGood(name, h, a, c.nodes, Migrating); }
        case ShrinkStage => if c.Drop? { ShrinkGood(name, h, a, c.left); }
        case SentinelStage => if c.Relabel? { SentinelGood(h, a, c.rest); }
        case Handler => HandlerGood(h, a, c);
      }
  }

  lemma {:induction false} EditedMatrix(a: seq<Partition>, b: seq<Partition>)
    requires SameButMigrate(a, b)
    ensures Matrix(a) == Matrix(b)
  {
    assert forall i :: 0 <= i < |a| ==> Row(a[i].topology) == Row(b[i].topology);
  }

  lemma {:induction false} EditGood(a: Object, b: Object)
    requires UserMay(a, b)
    ensures StepOk(a, Commit(b, User))
  {
    EditedMatrix(a.status.topo, b.status.topo);
    assert SameFlags(a.status.topo, b.status.topo);
  }

  lemma {:induction false} StepKeepsOk(name: string, s: State, e: Event)
    requires StateOk(s)
    ensures StateOk(Step(name, s, e))
    ensures s.history <= Step(name, s, e).history
  {
    match e
    case Act(who, choice) =>
      var a := if who in s.actors then s.actors[who] else Idle;
      ActorGood(name, s.history, a, choice);
    case Edit(obj) =>
      var last := s.history[|s.history| - 1].obj;
      if UserMay(last, obj) {
        EditGood(last, obj);
        var h := Step(name, s, e).history;
        forall i | 0 <= i < |h| - 1
          ensures StepOk(h[i].obj, h[i + 1])
        {
          if i < |s.history| - 1 {
            assert StepOk(s.history[i].obj, s.history[i + 1]);
          }
        }
      }
  }

  lemma {:induction false} RunKeepsOk(name: string, s: State, events: seq<Event>)
    requires StateOk(s)
    ensures StateOk(Run(name, s, events))
    decreases |events|
  {
    if events != [] {
      StepKeepsOk(name, s, events[0]);
      RunKeepsOk(name, Step(name, s, events[0]), events[1..]);
    }
  }

  lemma {:induction false} FollowsTrans(a: Object, b: Object, c: Object)
    requires Follows(a, b) && Follows(b, c)
    ensures Follows(a, c)
  {
  }

  lemma {:induction false} HistoryFollows(h: seq<Commit>, i: nat, j: nat)
    requires HistoryOk(h) && i <= j < |h|
    ensures Follows(h[i].obj, h[j].obj)
    decreases j
  {
    if i < j {
      HistoryFollows(h, i, j - 1);
      assert StepOk(h[j - 1].obj, h[j - 1 + 1]);
      FollowsTrans(h[i].obj, h[j - 1].obj, h[j].obj);
    }
  }

  // In every run, of any two persisted objects: once Failed, Failed for good;
  // before that the version never falls; and two objects that are not Failed and
  // agree on the version and on whether a shrink is pending have the same matrix.
  lemma {:induction false} VersionDeterminesMatrix(name: string, obj: Object, events: seq<Event>, i: nat, j: nat)
    requires i <= j < |Run(name, Start(obj), events).history|
    ensures var h := Run(name, Start(obj), events).history;
            var a, b := h[i].obj.status, h[j].obj.status;
            && (a.phase == Failed ==> b.phase == Failed)
            && (b.phase != Failed ==> a.version <= b.version)
            && ((b.phase != Failed && a.version == b.version && a.shrinking == b.shrinking)
                  ==> Matrix(a.topo) == Matrix(b.topo))
  {
    RunKeepsOk(name, Start(obj), events);
    HistoryFollows(Run(name, Start(obj), events).history, i, j);
  }

  // The only step that moves the matrix and keeps the version is the one that
  // starts a shrink, and a pending shrink ends only with a new version.
  lemma {:induction false} ShrinkIsTheOnlyWindow(name: string, obj: Object, events: seq<Event>, i: nat)
    requires i + 1 < |Run(name, Start(obj), events).history|
    ensures var h := Run(name, Start(obj), events).history;
            var a, b := h[i].obj.status, h[i + 1].obj.status;
            b.phase != Failed && a.version == b.version ==>
              && (Matrix(a.topo) != Matrix(b.topo) ==> !a.shrinking && b.shrinking)
              && (a.shrinking ==> b.shrinking)
  {
    RunKeepsOk(name, Start(obj), events);
    var h := Run(name, Start(obj), events).history;
    assert StepOk(h[i].obj, h[i + 1]);
  }

  // Although a save does not write the failover flag, no flag is lost by one: a
  // flag that is set in one persisted object and not in the next went with
  // ensureFailover's save, with a failover merge, or with the whole topology when
  // the object was given up.
  lemma {:induction false} FlagsAreNotLost(name: string, obj: Object, events: seq<Event>, k: nat, i: int, j: int)
    requires k + 1 < |Run(name, Start(obj), events).history|
    ensures var h := Run(name, Start(obj), events).history;
            EntryFlagged(h[k].obj.status.topo, i, j) && !EntryFlagged(h[k + 1].obj.status.topo, i, j) ==>
              h[k + 1].writer in {FailoverSave, Merger, Surrender}
  {
    RunKeepsOk(name, Start(obj), events);
    var h := Run(name, Start(obj), events).history;
    assert StepOk(h[k].obj, h[k + 1]);
  }
}
