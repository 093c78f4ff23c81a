// Moving slots between shards: the retry loop around the controller's migrate
// call, and what a whole migration does to the ownership of the slots and to the
// slots recorded for the source node.
module Migration {
  import opened Text
  import opened Counting
  import opened Topology

  const MIN_SLOT := 0
  const MAX_SLOT := 16383

  // The slots each shard owns.
  type Owners = seq<set<int>>

  // Every slot has exactly one owner and nothing else is owned.
  ghost predicate Partitioned(owned: Owners) {
    && (forall i, x :: 0 <= i < |owned| && x in owned[i] ==> MIN_SLOT <= x <= MAX_SLOT)
    && (forall x :: MIN_SLOT <= x <= MAX_SLOT ==> HasOwner(owned, x))
    && (forall i, j :: 0 <= i < j < |owned| ==> owned[i] !! owned[j])
  }

  predicate HasOwner(owned: Owners, x: int) {
    exists i :: 0 <= i < |owned| && x in owned[i]
  }

  predicate ValidMove(owned: Owners, dest: int, slot: int) {
    0 <= dest < |owned| && MIN_SLOT <= slot <= MAX_SLOT
  }

  function Move(owned: Owners, dest: int, slot: int): (r: Owners)
    ensures |r| == |owned|
    ensures forall i :: 0 <= i < |r| ==> r[i] == if i == dest then owned[i] + {slot} else owned[i] - {slot}
  {
    seq(|owned|, i requires 0 <= i < |owned| => if i == dest then owned[i] + {slot} else owned[i] - {slot})
  }

  lemma {:induction false} MoveKeepsPartition(owned: Owners, dest: int, slot: int)
    requires Partitioned(owned) && ValidMove(owned, dest, slot)
    ensures Partitioned(Move(owned, dest, slot))
  {
    var r := Move(owned, dest, slot);
    forall x | MIN_SLOT <= x <= MAX_SLOT
      ensures HasOwner(r, x)
    {
      if x == slot {
        assert x in r[dest];
      } else {
        assert HasOwner(owned, x);
        var i :| 0 <= i < |owned| && x in owned[i];
        assert x in r[i];
      }
    }
    forall i, j | 0 <= i < j < |r|
      ensures r[i] !! r[j]
    {
      assert owned[i] !! owned[j];
    }
  }

  lemma {:induction false} MoveTwice(owned: Owners, dest: int, slot: int)
    ensures Move(Move(owned, dest, slot), dest, slot) == Move(owned, dest, slot)
  {
    var once := Move(owned, dest, slot);
    var twice := Move(once, dest, slot);
    assert forall i :: 0 <= i < |owned| ==> twice[i] == once[i];
  }

  datatype Attempt = Attempt(src: int, dest: int, slot: int)

  // Milliseconds slept before attempt k + 1.
  function Backoff(k: nat): (ms: int) {
    if k == 0 then 0 else Backoff(k - 1) + Wait(k - 1)
  }

  function Wait(k: nat): (ms: int) {
    if k == 0 then 10 else 10 * Wait(k - 1)
  }

  lemma {:induction false} LongestBackoff()
    ensures Backoff(5) == 111110
  {
    assert Wait(1) == 100;
    assert Wait(2) == 1000;
    assert Wait(3) == 10000;
    assert Wait(4) == 100000;
    assert Backoff(2) == 110;
    assert Backoff(3) == 1110;
    assert Backoff(4) == 11110;
  }

  lemma {:induction false} BackoffGrows(k: nat)
    requires k <= 5
    ensures Backoff(k) <= 111110
    decreases 5 - k
  {
    LongestBackoff();
    if k < 5 {
      BackoffGrows(k + 1);
      WaitPositive(k);
    }
  }

  lemma {:induction false} WaitPositive(k: nat)
    ensures Wait(k) >= 10
  {
    if k > 0 {
      WaitPositive(k - 1);
    }
  }

  function Tries(a: Attempt, n: nat): (r: seq<Attempt>)
    ensures |r| == n
  {
    if n == 0 then [] else Tries(a, n - 1) + [a]
  }

  datatype Result = Done | TimedOut | NotSaved | OutOfRange

  class SlotTable {
    var owned: Owners
    var log: seq<Attempt>

    // MigrateSlotAndData. A call that reports failure may still have moved the
    // slot; one that reports success has.
    method MigrateSlotAndData(src: int, dest: int, slot: int) returns (ok: bool)
      modifies this
      ensures log == old(log) + [Attempt(src, dest, slot)]
      ensures owned == old(owned) || (ValidMove(old(owned), dest, slot) && owned == Move(old(owned), dest, slot))
      ensures ok ==> ValidMove(old(owned), dest, slot) && owned == Move(old(owned), dest, slot)
    {
      log := log + [Attempt(src, dest, slot)];
      var fails, lost := *, *;
      if fails || !ValidMove(owned, dest, slot) {
        return false;
      }
      owned := Move(owned, dest, slot);
      return !lost;
    }

    // The retry loop for one slot.
    method MoveSlot(src: int, dest: int, slot: int) returns (ok: bool, attempts: nat, waited: int)
      modifies this
      ensures 1 <= attempts <= 6 && waited == Backoff(attempts - 1) && waited <= 111110
      ensures log == old(log) + Tries(Attempt(src, dest, slot), attempts)
      ensures owned == old(owned) || (ValidMove(old(owned), dest, slot) && owned == Move(old(owned), dest, slot))
      ensures ok ==> ValidMove(old(owned), dest, slot) && owned == Move(old(owned), dest, slot)
      ensures !ok ==> attempts == 6
    {
      var retry, wait := 0, 10;
      attempts, waited := 0, 0;
      ghost var start := owned;
      while true
        invariant 0 <= retry <= 5 && attempts == retry && wait == Wait(retry) && waited == Backoff(retry)
        invariant log == old(log) + Tries(Attempt(src, dest, slot), attempts)
        invariant owned == start || (ValidMove(start, dest, slot) && owned == Move(start, dest, slot))
        decreases 5 - retry
      {
        MoveTwice(start, dest, slot);
        ok := MigrateSlotAndData(src, dest, slot);
        attempts := attempts + 1;
        BackoffGrows(retry);
        if ok {
          return;
        }
        if retry < 5 {
          waited := waited + wait;
        } else {
          return;
        }
        retry := retry + 1;
        wait := wait * 10;
      }
    }

    // One migration of the list: its slots one after another. `moved` of them were
    // moved, the one that timed out possibly among them.
    method MoveBatch(src: int, migrate: Topology.Migration) returns (ok: bool, ghost moved: nat)
      modifies this
      ensures moved <= |migrate.slots| && (ok ==> moved == |migrate.slots|)
      ensures SlotsValid(old(owned), migrate.shard, migrate.slots[..moved])
      ensures owned == MoveSlots(old(owned), migrate.shard, migrate.slots[..moved])
      ensures LogGrows(old(log), log, src, migrate.shard, migrate.slots)
      ensures Partitioned(old(owned)) ==> Partitioned(owned)
    {
      ghost var base, logged := owned, log;
      moved := 0;
      for k := 0 to |migrate.slots|
        invariant moved == k && SlotsValid(base, migrate.shard, migrate.slots[..k])
        invariant owned == MoveSlots(base, migrate.shard, migrate.slots[..k])
        invariant LogGrows(logged, log, src, migrate.shard, migrate.slots) && |log| <= |logged| + 6 * k
      {
        ghost var before, mid := log, owned;
        SlotsSnoc(base, migrate.shard, migrate.slots, k);
        var attempts, waited;
        ok, attempts, waited := MoveSlot(src, migrate.shard, migrate.slots[k]);
        TriesGrow(logged, before, src, migrate.shard, migrate.slots, k, attempts);
        moved := if owned == mid then k else k + 1;
        if !ok {
          SlotsMayKeepPartition(base, migrate.shard, migrate.slots[..moved]);
          return;
        }
        moved := k + 1;
      }
      assert migrate.slots[..|migrate.slots|] == migrate.slots;
      SlotsMayKeepPartition(base, migrate.shard, migrate.slots);
      ok := true;
    }

    // ensureReBalanceTopo. Saving the topology after a batch sorts what is left of
    // the node and may fail; slicing more slots off the record than it holds
    // panics. `done` batches are off the record, and `moved` slots of the next one
    // were moved.
    method ReBalance(src: int, node: Node) returns (r: Result, n: Node, ghost done: nat, ghost moved: nat)
      requires SortedNode(node) == node
      modifies this
      ensures Stopped(old(owned), node, done, owned, moved)
      ensures n == AfterBatches(node, done)
      ensures r == Done ==> done == |node.migrate| && |AllSlots(node.migrate)| <= |node.slots|
      ensures r == OutOfRange ==> |AllSlots(node.migrate)| > |node.slots|
      ensures SourceIs(old(log), log, src)
    {
      n, done, moved := node, 0, 0;
      ghost var start := owned;
      FirstBatch(start, node);
      for b := 0 to |node.migrate|
        invariant done == b && moved == 0 && Progress(start, node, b, owned, n)
        invariant SourceIs(old(log), log, src)
      {
        var migrate := node.migrate[b];
        ghost var base, logged := owned, log;
        var ok;
        ok, moved := MoveBatch(src, migrate);
        SourceGrows(old(log), logged, log, src, migrate.shard, migrate.slots);
        StopHere(start, node, b, base, n, owned, moved);
        if !ok {
          return TimedOut, n, done, moved;
        }
        assert migrate.slots[..moved] == migrate.slots;
        if |migrate.slots| > |n.slots| {
          TooMany(start, node, b, base, n);
          return OutOfRange, n, done, moved;
        }
        GoOn(start, node, b, base, n);
        n := n.(slots := n.slots[|migrate.slots|..], migrate := n.migrate[1..]);
        n := SortedNode(n);
        done, moved := b + 1, 0;
        var fails := *;
        if fails {
          return NotSaved, n, done, moved;
        }
      }
      AllMade(start, node, owned, n);
      r := Done;
    }
  }

  // The migrations carried out: the first `done`, and `moved` slots of the next.
  function Made(migrate: seq<Topology.Migration>, done: nat, moved: nat): (r: seq<Topology.Migration>)
    requires done <= |migrate| && (done < |migrate| ==> moved <= |migrate[done].slots|)
  {
    if done == |migrate| then migrate
    else migrate[..done] + [Topology.Migration(migrate[done].shard, migrate[done].slots[..moved])]
  }

  lemma {:induction false} MadeSome(start: Owners, node: Node, b: nat, owned: Owners, n: Node, moved: nat)
    requires Progress(start, node, b, owned, n) && b < |node.migrate| && moved <= |node.migrate[b].slots|
    requires SlotsValid(owned, node.migrate[b].shard, node.migrate[b].slots[..moved])
    ensures AllValid(start, Made(node.migrate, b, moved))
    ensures MoveSlots(owned, node.migrate[b].shard, node.migrate[b].slots[..moved])
         == MoveBatches(start, Made(node.migrate, b, moved))
  {
    var made := Made(node.migrate, b, moved);
    assert made[..b] == node.migrate[..b];
    assert |owned| == |start|;
  }

  lemma {:induction false} MadeNone(start: Owners, node: Node, b: nat, owned: Owners, n: Node)
    requires Progress(start, node, b, owned, n)
    ensures AllValid(start, Made(node.migrate, b, 0)) && owned == MoveBatches(start, Made(node.migrate, b, 0))
  {
    if b == |node.migrate| {
      assert node.migrate[..b] == node.migrate;
    } else {
      MadeSome(start, node, b, owned, n, 0);
      assert node.migrate[b].slots[..0] == [];
    }
  }

  lemma {:induction false} AllMade(start: Owners, node: Node, owned: Owners, n: Node)
    requires Progress(start, node, |node.migrate|, owned, n)
    ensures Stopped(start, node, |node.migrate|, owned, 0) && |AllSlots(node.migrate)| <= |node.slots|
  {
    assert node.migrate[..|node.migrate|] == node.migrate;
    MayKeepPartition(start, node.migrate);
  }

  // What is known when the run stops in batch b.
  lemma {:induction false} StopHere(start: Owners, node: Node, b: nat, base: Owners, n: Node, owned: Owners, moved: nat)
    requires Progress(start, node, b, base, n) && b < |node.migrate| && moved <= |node.migrate[b].slots|
    requires SlotsValid(base, node.migrate[b].shard, node.migrate[b].slots[..moved])
    requires owned == MoveSlots(base, node.migrate[b].shard, node.migrate[b].slots[..moved])
    ensures Stopped(start, node, b, owned, moved)
  {
    MadeSome(start, node, b, base, n, moved);
    MayKeepPartition(start, Made(node.migrate, b, moved));
  }

  // What is known when batch b is off the record.
  lemma {:induction false} GoOn(start: Owners, node: Node, b: nat, base: Owners, n: Node)
    requires SortedNode(node) == node
    requires Progress(start, node, b, base, n) && b < |node.migrate| && |node.migrate[b].slots| <= |n.slots|
    requires SlotsValid(base, node.migrate[b].shard, node.migrate[b].slots)
    ensures var owned := MoveSlots(base, node.migrate[b].shard, node.migrate[b].slots);
            var next := SortedNode(n.(slots := n.slots[|node.migrate[b].slots|..], migrate := n.migrate[1..]));
            Progress(start, node, b + 1, owned, next) && Stopped(start, node, b + 1, owned, 0)
  {
    var owned := MoveSlots(base, node.migrate[b].shard, node.migrate[b].slots);
    NextBatch(start, node, b, base, n);
    StaysSorted(node, b + 1);
    MadeNone(start, node, b + 1, owned, AfterBatches(node, b + 1));
    MayKeepPartition(start, Made(node.migrate, b + 1, 0));
  }

  // The table after `done` batches and `moved` slots of the next one.
  ghost predicate Stopped(start: Owners, node: Node, done: nat, owned: Owners, moved: nat) {
    && done <= |node.migrate| && (done < |node.migrate| ==> moved <= |node.migrate[done].slots|)
    && AllValid(start, Made(node.migrate, done, moved))
    && owned == MoveBatches(start, Made(node.migrate, done, moved))
    && (Partitioned(start) ==> Partitioned(owned))
  }

  // A sorted node stays sorted when batches are sliced off.
  lemma {:induction false} StaysSorted(node: Node, b: nat)
    requires SortedNode(node) == node && b <= |node.migrate|
    ensures SortedNode(AfterBatches(node, b)) == AfterBatches(node, b)
  {
    var n := AfterBatches(node, b);
    SortedSorts(node.slots);
    SortedOfAscending(n.slots);
    forall i | 0 <= i < |n.migrate|
      ensures SortedMigrations(n.migrate)[i] == n.migrate[i]
    {
      assert SortedMigrations(node.migrate)[b + i] == node.migrate[b + i];
    }
  }

  // What the save before a migration leaves in memory is sorted.
  lemma {:induction false} SavedIsSorted(n: Node)
    ensures SortedNode(SortedNode(n)) == SortedNode(n)
  {
    SortedSorts(n.slots);
    SortedOfAscending(Sorted(n.slots));
    forall i | 0 <= i < |n.migrate|
      ensures Sorted(Sorted(n.migrate[i].slots)) == Sorted(n.migrate[i].slots)
    {
      SortedSorts(n.migrate[i].slots);
      SortedOfAscending(Sorted(n.migrate[i].slots));
    }
  }

  // The attempts logged since `before` all move one of the slots from src to dest,
  // at most six for each slot.
  ghost predicate LogGrows(before: seq<Attempt>, after: seq<Attempt>, src: int, dest: int, slots: seq<int>) {
    && before <= after && |after| <= |before| + 6 * |slots|
    && forall k :: |before| <= k < |after| ==> after[k].src == src && after[k].dest == dest && after[k].slot in slots
  }

  ghost predicate SourceIs(before: seq<Attempt>, after: seq<Attempt>, src: int) {
    before <= after && forall k :: |before| <= k < |after| ==> after[k].src == src
  }

  lemma {:induction false} SourceGrows(first: seq<Attempt>, before: seq<Attempt>, after: seq<Attempt>, src: int,
                                       dest: int, slots: seq<int>)
    requires SourceIs(first, before, src) && LogGrows(before, after, src, dest, slots)
    ensures SourceIs(first, after, src)
  {
  }

  lemma {:induction false} TriesAre(a: Attempt, n: nat)
    ensures forall k :: 0 <= k < n ==> Tries(a, n)[k] == a
  {
    if n > 0 {
      TriesAre(a, n - 1);
    }
  }

  lemma {:induction false} TriesGrow(before: seq<Attempt>, mid: seq<Attempt>, src: int, dest: int, slots: seq<int>,
                                     k: nat, n: nat)
    requires k < |slots| && n <= 6
    requires LogGrows(before, mid, src, dest, slots) && |mid| <= |before| + 6 * k
    ensures LogGrows(before, mid + Tries(Attempt(src, dest, slots[k]), n), src, dest, slots)
  {
    TriesAre(Attempt(src, dest, slots[k]), n);
  }

  // After b complete batches.
  ghost predicate Progress(start: Owners, node: Node, b: nat, owned: Owners, n: Node) {
    && b <= |node.migrate|
    && |AllSlots(node.migrate[..b])| <= |node.slots| && n == AfterBatches(node, b)
    && AllValid(start, node.migrate[..b]) && owned == MoveBatches(start, node.migrate[..b])
  }

  lemma {:induction false} FirstBatch(start: Owners, node: Node)
    ensures Progress(start, node, 0, start, node)
  {
    assert node.migrate[..0] == [];
  }

  lemma {:induction false} TooMany(start: Owners, node: Node, b: nat, owned: Owners, n: Node)
    requires Progress(start, node, b, owned, n) && b < |node.migrate| && |node.migrate[b].slots| > |n.slots|
    ensures |AllSlots(node.migrate)| > |node.slots|
  {
    BatchesSnoc([], node.migrate, b);
    ListedPrefix(node.migrate, b + 1);
  }

  lemma {:induction false} NextBatch(start: Owners, node: Node, b: nat, owned: Owners, n: Node)
    requires Progress(start, node, b, owned, n) && b < |node.migrate| && |node.migrate[b].slots| <= |n.slots|
    requires SlotsValid(owned, node.migrate[b].shard, node.migrate[b].slots)
    ensures Progress(start, node, b + 1, MoveSlots(owned, node.migrate[b].shard, node.migrate[b].slots),
                     n.(slots := n.slots[|node.migrate[b].slots|..], migrate := n.migrate[1..]))
  {
    BatchesSnoc(start, node.migrate, b);
    assert |owned| == |start|;
    var next := node.migrate[..b + 1];
    assert next == node.migrate[..b] + [node.migrate[b]];
    assert AllValid(start, next);
    assert n.migrate[1..] == node.migrate[b + 1..];
    var k := |AllSlots(node.migrate[..b])|;
    assert node.slots[k..][|node.migrate[b].slots|..] == node.slots[k + |node.migrate[b].slots|..];
  }

  // ----- what a migration does -----

  function MoveSlots(owned: Owners, dest: int, slots: seq<int>): (r: Owners)
    ensures |r| == |owned|
  {
    if slots == [] then owned
    else Move(MoveSlots(owned, dest, slots[..|slots| - 1]), dest, slots[|slots| - 1])
  }

  function MoveBatches(owned: Owners, migrate: seq<Topology.Migration>): (r: Owners)
    ensures |r| == |owned|
  {
    if migrate == [] then owned
    else
      var m := migrate[|migrate| - 1];
      MoveSlots(MoveBatches(owned, migrate[..|migrate| - 1]), m.shard, m.slots)
  }

  ghost predicate SlotsValid(owned: Owners, dest: int, slots: seq<int>) {
    forall k :: 0 <= k < |slots| ==> ValidMove(owned, dest, slots[k])
  }

  ghost predicate AllValid(owned: Owners, migrate: seq<Topology.Migration>) {
    forall b :: 0 <= b < |migrate| ==> SlotsValid(owned, migrate[b].shard, migrate[b].slots)
  }

  lemma {:induction false} SlotsSnoc(owned: Owners, dest: int, slots: seq<int>, k: nat)
    requires k < |slots|
    ensures MoveSlots(owned, dest, slots[..k + 1]) == Move(MoveSlots(owned, dest, slots[..k]), dest, slots[k])
  {
    assert slots[..k + 1][..k] == slots[..k];
  }

  lemma {:induction false} BatchesSnoc(owned: Owners, migrate: seq<Topology.Migration>, b: nat)
    requires b < |migrate|
    ensures MoveBatches(owned, migrate[..b + 1])
         == MoveSlots(MoveBatches(owned, migrate[..b]), migrate[b].shard, migrate[b].slots)
    ensures AllSlots(migrate[..b + 1]) == AllSlots(migrate[..b]) + migrate[b].slots
  {
    assert migrate[..b + 1][..b] == migrate[..b];
  }

  // All slots a list of migrations names, in order.
  function AllSlots(migrate: seq<Topology.Migration>): (r: seq<int>) {
    if migrate == [] then [] else AllSlots(migrate[..|migrate| - 1]) + migrate[|migrate| - 1].slots
  }

  lemma {:induction false} ListedPrefix(migrate: seq<Topology.Migration>, b: nat)
    requires b <= |migrate|
    ensures |AllSlots(migrate[..b])| <= |AllSlots(migrate)|
    decreases |migrate| - b
  {
    if b < |migrate| {
      ListedPrefix(migrate, b + 1);
      BatchesSnoc([], migrate, b);
    } else {
      assert migrate[..b] == migrate;
    }
  }

  // The node after its first b batches were moved and saved: the recorded slots
  // lose as many from the front as were moved.
  function AfterBatches(node: Node, b: nat): (r: Node)
    requires b <= |node.migrate|
  {
    var moved := |AllSlots(node.migrate[..b])|;
    node.(migrate := node.migrate[b..],
          slots := if moved <= |node.slots| then node.slots[moved..] else [])
  }

  // ----- ownership -----

  // The shard a slot goes to: that of the last migration naming it.
  function Target(migrate: seq<Topology.Migration>, slot: int): (r: Option<int>) {
    if migrate == [] then None
    else
      var m := migrate[|migrate| - 1];
      if slot in m.slots then Some(m.shard) else Target(migrate[..|migrate| - 1], slot)
  }

  lemma {:induction false} MoveSlotsOwner(owned: Owners, dest: int, slots: seq<int>, slot: int, i: nat)
    requires i < |owned|
    ensures slot in MoveSlots(owned, dest, slots)[i] <==> if slot in slots then i == dest else slot in owned[i]
  {
    if slots != [] {
      var n := |slots| - 1;
      MoveSlotsOwner(owned, dest, slots[..n], slot, i);
      assert slots == slots[..n] + [slots[n]];
    }
  }

  // After a completed migration every named slot is owned by the shard that the
  // last migration naming it gives, and by no other; every other slot is where it
  // was.
  lemma {:induction false} OwnerIsTarget(owned: Owners, migrate: seq<Topology.Migration>, slot: int, i: nat)
    requires i < |owned|
    ensures slot in MoveBatches(owned, migrate)[i] <==>
            match Target(migrate, slot) { case Some(d) => i == d case None => slot in owned[i] }
  {
    if migrate != [] {
      var n := |migrate| - 1;
      OwnerIsTarget(owned, migrate[..n], slot, i);
      MoveSlotsOwner(MoveBatches(owned, migrate[..n]), migrate[n].shard, migrate[n].slots, slot, i);
    }
  }

  // Wherever a migration stops, the slots stay partitioned.
  lemma {:induction false} BatchesKeepPartition(owned: Owners, migrate: seq<Topology.Migration>)
    requires Partitioned(owned) && AllValid(owned, migrate)
    ensures Partitioned(MoveBatches(owned, migrate))
  {
    if migrate != [] {
      var n := |migrate| - 1;
      BatchesKeepPartition(owned, migrate[..n]);
      SlotsKeepPartition(MoveBatches(owned, migrate[..n]), migrate[n].shard, migrate[n].slots);
    }
  }

  lemma {:induction false} SlotsKeepPartition(owned: Owners, dest: int, slots: seq<int>)
    requires Partitioned(owned) && SlotsValid(owned, dest, slots)
    ensures Partitioned(MoveSlots(owned, dest, slots))
  {
    if slots != [] {
      var n := |slots| - 1;
      SlotsKeepPartition(owned, dest, slots[..n]);
      MoveKeepsPartition(MoveSlots(owned, dest, slots[..n]), dest, slots[n]);
    }
  }

  lemma {:induction false} MayKeepPartition(owned: Owners, migrate: seq<Topology.Migration>)
    requires AllValid(owned, migrate)
    ensures Partitioned(owned) ==> Partitioned(MoveBatches(owned, migrate))
  {
    if Partitioned(owned) {
      BatchesKeepPartition(owned, migrate);
    }
  }

  lemma {:induction false} SlotsMayKeepPartition(owned: Owners, dest: int, slots: seq<int>)
    requires SlotsValid(owned, dest, slots)
    ensures Partitioned(owned) ==> Partitioned(MoveSlots(owned, dest, slots))
  {
    if Partitioned(owned) {
      SlotsKeepPartition(owned, dest, slots);
    }
  }

  predicate Names(migrate: seq<Topology.Migration>, b: int, slot: int) {
    0 <= b < |migrate| && slot in migrate[b].slots
  }

  lemma {:induction false} TargetNames(migrate: seq<Topology.Migration>, slot: int)
    ensures match Target(migrate, slot) {
              case None => forall b :: !Names(migrate, b, slot)
              case Some(d) => exists b :: Names(migrate, b, slot) && migrate[b].shard == d
            }
  {
    if migrate != [] {
      var n := |migrate| - 1;
      var init := migrate[..n];
      TargetNames(init, slot);
      if slot in migrate[n].slots {
        assert Names(migrate, n, slot);
      } else {
        assert forall b :: Names(migrate, b, slot) <==> Names(init, b, slot);
      }
    }
  }

  // Wherever a migration stops: a slot no migration names keeps its owner, and any
  // other slot is with its old owner or with a shard some migration gives for it.
  lemma {:induction false} StoppedOwner(owned: Owners, migrate: seq<Topology.Migration>, done: nat, moved: nat,
                                        slot: int, i: nat)
    requires done <= |migrate| && (done < |migrate| ==> moved <= |migrate[done].slots|) && i < |owned|
    ensures var now := MoveBatches(owned, Made(migrate, done, moved));
            && ((forall b :: !Names(migrate, b, slot)) ==> (slot in now[i] <==> slot in owned[i]))
            && (slot in now[i] ==>
                  slot in owned[i] || exists b :: Names(migrate, b, slot) && migrate[b].shard == i)
  {
    var made := Made(migrate, done, moved);
    OwnerIsTarget(owned, made, slot, i);
    TargetNames(made, slot);
    forall b | Names(made, b, slot)
      ensures Names(migrate, b, slot) && made[b].shard == migrate[b].shard
    {
      if b == done && done < |migrate| {
        assert made[b].slots == migrate[b].slots[..moved];
      }
    }
  }

  // With no slot named twice, each is owned by the shard of its own migration.
  lemma {:induction false} DistinctTarget(migrate: seq<Topology.Migration>, b: nat, slot: int)
    requires b < |migrate| && slot in migrate[b].slots
    requires forall c :: 0 <= c < |migrate| && c != b ==> slot !in migrate[c].slots
    ensures Target(migrate, slot) == Some(migrate[b].shard)
  {
    var n := |migrate| - 1;
    if b < n {
      DistinctTarget(migrate[..n], b, slot);
    }
  }

  // ----- recorded slots -----

  // The node that a rebalance leaves after `done` batches has on record the slots that
  // were not moved if and only if the moved ones were its first ones.
  lemma {:induction false} RecordedIff(node: Node, done: nat)
    requires done <= |node.migrate| && Distinct(node.slots)
    requires |AllSlots(node.migrate[..done])| <= |node.slots|
    ensures var n, moved := AfterBatches(node, done), AllSlots(node.migrate[..done]);
            && (Elems(n.slots) == Elems(node.slots) - Elems(moved) <==> Elems(moved) == Elems(node.slots[..|moved|]))
            && n.migrate == node.migrate[done..] && n.nodeId == node.nodeId && n.role == node.role
  {
    FrontIff(node.slots, AllSlots(node.migrate[..done]));
  }

  // Dropping as many slots from the front as were moved leaves the slots that were
  // not moved if and only if the moved ones are the first ones.
  lemma {:induction false} FrontIff(slots: seq<int>, moved: seq<int>)
    requires Distinct(slots) && |moved| <= |slots|
    ensures Elems(slots[|moved|..]) == Elems(slots) - Elems(moved)
       <==> Elems(moved) == Elems(slots[..|moved|])
  {
    var k := |moved|;
    var front, back := slots[..k], slots[k..];
    assert slots == front + back;
    ElemsConcat(front, back);
    assert forall i, j :: 0 <= i < |front| && 0 <= j < |back| ==> front[i] != back[j];
    assert Elems(front) !! Elems(back);
    if Elems(back) == Elems(slots) - Elems(moved) {
      assert Elems(front) <= Elems(moved);
      ElemsOfDistinct(front);
      ElemsAtMost(moved);
      SubsetSize(Elems(front), Elems(moved));
    }
  }

  // Moving slot 2 of the recorded slots 0, 1 and 2 leaves 1 and 2 on record.
  lemma {:induction false} WrongSlotsOnRecord()
    ensures Elems([0, 1, 2][|[2]|..]) != Elems([0, 1, 2]) - Elems([2])
  {
    assert [0, 1, 2][1..] == [1, 2];
    assert 2 in Elems([1, 2]) && 2 in Elems([2]);
  }
}
