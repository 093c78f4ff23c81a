// Cleaning up volume claims: which claims go once the pods are known, with the
// shard and ordinal read back from the claim's name.
module Claims {
  import opened Text
  import opened Topology
  import opened ShrinkCorrect

  function ClaimName(instance: string, shard: int, ordinal: int): (name: string) {
    "data-" + PodName(instance, shard, ordinal)
  }

  // The last two fields of a name; None when there are not two (the code then
  // indexes out of range).
  function Indices(name: string): (r: Option<(int, int)>)
    ensures r.Some? ==> r.value.0 >= 0 && r.value.1 >= 0
  {
    var fields := Split(name, '-');
    var n := |fields|;
    if n < 2 then None
    else
      assert '-' !in fields[n - 2] && '-' !in fields[n - 1];
      Some((AtoiOrZero(fields[n - 2]), AtoiOrZero(fields[n - 1])))
  }

  // resources.GetPVCOrPodIndex
  function PodIndex(name: string): (r: Option<int>) {
    Atoi(AfterLast(name, '-'))
  }

  // The indices printed into a claim's name are read back, whatever the instance
  // is called.
  lemma {:induction false} IndicesOfClaim(instance: string, shard: nat, ordinal: nat)
    ensures Indices(ClaimName(instance, shard, ordinal)) == Some((shard as int, ordinal as int))
    ensures PodIndex(ClaimName(instance, shard, ordinal)) == Some(ordinal as int)
    ensures PodIndex(PodName(instance, shard, ordinal)) == Some(ordinal as int)
  {
    var p := "data-" + instance;
    var a, b := Itoa(shard), Itoa(ordinal);
    NoSeparator(shard);
    NoSeparator(ordinal);
    AtoiItoa(shard);
    AtoiItoa(ordinal);
    assert ClaimName(instance, shard, ordinal) == (p + ['-'] + a) + ['-'] + b;
    SplitLast(p + ['-'] + a, '-', b);
    SplitLast(p, '-', a);
    AfterLastField(p + ['-'] + a, '-', b);
    assert PodName(instance, shard, ordinal) == (instance + ['-'] + a) + ['-'] + b;
    AfterLastField(instance + ['-'] + a, '-', b);
  }

  // sort.Search for the first node whose ordinal is at least x.
  method Search(nodes: seq<Node>, x: int) returns (pos: nat)
    requires Ordered(nodes)
    ensures pos <= |nodes|
    ensures forall k :: 0 <= k < pos ==> nodes[k].podIndex < x
    ensures forall k :: pos <= k < |nodes| ==> nodes[k].podIndex >= x
  {
    ghost var o := Ordinal(nodes);
    var i, j := 0, |nodes|;
    while i < j
      invariant 0 <= i <= j <= |nodes|
      invariant forall k :: 0 <= k < i ==> o[k] < x
      invariant forall k :: j <= k < |nodes| ==> o[k] >= x
    {
      var h := (i + j) / 2;
      assert o[h] == nodes[h].podIndex;
      if nodes[h].podIndex < x {
        i := h + 1;
      } else {
        j := h;
      }
    }
    pos := i;
    assert forall k :: 0 <= k < |nodes| ==> o[k] == nodes[k].podIndex;
  }

  // No pod of a kept shard has this ordinal.
  predicate Dead(sts: seq<seq<Node>>, master: nat, shard: nat, ordinal: int)
    requires master <= |sts|
  {
    shard >= master || ordinal !in Ordinal(sts[shard])
  }

  predicate DeadClaim(sts: seq<seq<Node>>, master: nat, name: string)
    requires master <= |sts|
  {
    Indices(name).Some? && Dead(sts, master, Indices(name).value.0, Indices(name).value.1)
  }

  // The decision for one claim: binary search instead of membership.
  method ShouldRemove(sts: seq<seq<Node>>, master: nat, shard: nat, ordinal: int) returns (remove: bool)
    requires master <= |sts| && forall i :: 0 <= i < master ==> Ordered(sts[i])
    ensures remove <==> Dead(sts, master, shard, ordinal)
  {
    remove := false;
    if shard >= master {
      remove := true;
    } else {
      var nodes := sts[shard];
      var pos := Search(nodes, ordinal);
      if pos >= |nodes| || nodes[pos].podIndex != ordinal {
        remove := true;
      }
      ghost var o := Ordinal(nodes);
      if pos < |nodes| && o[pos] == ordinal {
        assert ordinal in o;
      } else {
        assert forall k :: 0 <= k < |o| ==> o[k] != ordinal by {
          assert forall k :: 0 <= k < |o| ==> o[k] == nodes[k].podIndex;
          assert forall k :: pos < k < |o| ==> o[pos] < o[k];
        }
      }
    }
  }

  function Select(claims: seq<string>, sts: seq<seq<Node>>, master: nat): (r: seq<string>)
    requires master <= |sts|
  {
    if claims == [] then []
    else
      var n := |claims| - 1;
      Select(claims[..n], sts, master) + if DeadClaim(sts, master, claims[n]) then [claims[n]] else []
  }

  datatype Outcome = Cleaned | Failed | IndexOutOfRange

  // cleanPersistentVolumeClaim. Deleting a claim may fail, which ends the pass.
  method CleanClaims(claims: seq<string>, sts: seq<seq<Node>>, master: nat, shrinking: bool)
    returns (r: Outcome, deleted: seq<string>)
    requires master <= |sts| && forall i :: 0 <= i < master ==> Ordered(sts[i])
    ensures shrinking ==> r == Cleaned && deleted == []
    ensures !shrinking && r == Cleaned ==> deleted == Select(claims, sts, master)
    ensures r == IndexOutOfRange ==> exists k :: 0 <= k < |claims| && Indices(claims[k]) == None
    ensures forall c :: c in deleted ==> c in claims && DeadClaim(sts, master, c)
  {
    deleted := [];
    if shrinking {
      return Cleaned, deleted;
    }
    for k := 0 to |claims|
      invariant deleted == Select(claims[..k], sts, master)
      invariant forall c :: c in deleted ==> c in claims && DeadClaim(sts, master, c)
    {
      assert claims[..k + 1][..k] == claims[..k];
      var at := Indices(claims[k]);
      if at == None {
        return IndexOutOfRange, deleted;
      }
      var remove := ShouldRemove(sts, master, at.value.0, at.value.1);
      if remove {
        var fails := *;
        if fails {
          return Failed, deleted;
        }
        deleted := deleted + [claims[k]];
      }
    }
    assert claims[..|claims|] == claims;
    r := Cleaned;
  }

  lemma {:induction false} SelectMember(claims: seq<string>, sts: seq<seq<Node>>, master: nat, c: string)
    requires master <= |sts|
    ensures c in Select(claims, sts, master) <==> c in claims && DeadClaim(sts, master, c)
  {
    if claims != [] {
      var n := |claims| - 1;
      SelectMember(claims[..n], sts, master, c);
      assert claims == claims[..n] + [claims[n]];
    }
  }

  // A completed pass deletes a pod's claim if and only if the pod is not running:
  // its shard is gone or its ordinal is not listed. So no claim of a running pod
  // in a kept shard is ever deleted.
  lemma {:induction false} DeletedIffDead(claims: seq<string>, sts: seq<seq<Node>>, master: nat,
                                          instance: string, shard: nat, ordinal: nat)
    requires master <= |sts| && ClaimName(instance, shard, ordinal) in claims
    ensures ClaimName(instance, shard, ordinal) in Select(claims, sts, master)
       <==> shard >= master || ordinal !in Ordinal(sts[shard])
  {
    IndicesOfClaim(instance, shard, ordinal);
    SelectMember(claims, sts, master, ClaimName(instance, shard, ordinal));
  }
}
