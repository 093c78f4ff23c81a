// Which pod ordinals an OpenKruise StatefulSet runs: with `replicas` replicas and
// the ordinals `reserve` reserved, the first `replicas` naturals not reserved.
module Ordinals {
  import opened Counting

  // The live ordinals from `from` up, in ascending order.
  function LiveFrom(from: nat, replicas: nat, reserve: set<int>): (pods: seq<int>)
    ensures |pods| == replicas
    decreases replicas + |reserve|
  {
    if replicas == 0 then []
    else if from in reserve then LiveFrom(from + 1, replicas, reserve - {from})
    else [from] + LiveFrom(from + 1, replicas - 1, reserve)
  }

  // The live ordinals of a StatefulSet, as the pod list sorted by ordinal. The
  // reserve list may repeat an ordinal and may hold any integers.
  function LivePods(replicas: nat, reserve: seq<int>): (pods: seq<int>)
    ensures |pods| == replicas
  {
    LiveFrom(0, replicas, Elems(reserve))
  }

  function Live(replicas: nat, reserve: seq<int>): (pods: set<int>) {
    Elems(LivePods(replicas, reserve))
  }

  // The same set said without an algorithm: `replicas` naturals, none reserved,
  // and no unreserved natural skipped below one of them.
  ghost predicate IsLive(pods: set<int>, replicas: nat, reserve: set<int>) {
    && |pods| == replicas
    && (forall x :: x in pods ==> x >= 0 && x !in reserve)
    && (forall x, y :: y in pods && 0 <= x < y && x !in reserve ==> x in pods)
  }

  // The same for the ordinals from `from` up, on the list.
  ghost predicate LiveList(pods: seq<int>, from: int, reserve: set<int>) {
    && StrictlyAscending(pods)
    && (forall x :: x in pods ==> x >= from && x !in reserve)
    && (forall x, y :: y in pods && from <= x < y && x !in reserve ==> x in pods)
  }

  lemma {:induction false} LiveListCons(pods: seq<int>, from: int, reserve: set<int>)
    requires LiveList(pods, from + 1, reserve) && from !in reserve
    ensures LiveList([from] + pods, from, reserve)
  {
    var all := [from] + pods;
    StrictlyAscendingCons(from, pods);
    assert forall x :: x in all <==> x == from || x in pods;
  }

  lemma {:induction false} StrictlyAscendingCons(x: int, s: seq<int>)
    requires StrictlyAscending(s) && forall y :: y in s ==> x < y
    ensures StrictlyAscending([x] + s)
  {
    var all := [x] + s;
    assert forall i :: 0 <= i < |s| ==> all[i + 1] == s[i] && s[i] in s;
  }

  lemma {:induction false} LiveListSkip(pods: seq<int>, from: int, reserve: set<int>)
    requires LiveList(pods, from + 1, reserve - {from}) && from in reserve
    ensures LiveList(pods, from, reserve)
  {
  }

  lemma {:induction false} LiveFromIs(from: nat, replicas: nat, reserve: set<int>)
    ensures LiveList(LiveFrom(from, replicas, reserve), from, reserve)
    decreases replicas + |reserve|
  {
    if replicas == 0 {
    } else if from in reserve {
      LiveFromIs(from + 1, replicas, reserve - {from});
      LiveListSkip(LiveFrom(from + 1, replicas, reserve - {from}), from, reserve);
    } else {
      LiveFromIs(from + 1, replicas - 1, reserve);
      LiveListCons(LiveFrom(from + 1, replicas - 1, reserve), from, reserve);
    }
  }

  lemma {:induction false} LiveIs(replicas: nat, reserve: seq<int>)
    ensures IsLive(Live(replicas, reserve), replicas, Elems(reserve))
    ensures StrictlyAscending(LivePods(replicas, reserve))
  {
    LiveFromIs(0, replicas, Elems(reserve));
    ElemsOfDistinct(LivePods(replicas, reserve));
  }

  // The description determines the set.
  lemma {:induction false} LiveUnique(a: set<int>, b: set<int>, replicas: nat, reserve: set<int>)
    requires IsLive(a, replicas, reserve) && IsLive(b, replicas, reserve)
    ensures a == b
  {
    if x :| x in a && x !in b {
      // x is skipped by b, so b lies below x and hence inside a.
      assert forall y :: y in b ==> y < x;
      assert b <= a - {x};
      SubsetSize(b, a - {x});
      assert false;
    }
    assert forall x :: x in a ==> x in b;
    SubsetSize(a, b);
  }

  lemma {:induction false} LiveCharacterised(pods: set<int>, replicas: nat, reserve: seq<int>)
    ensures pods == Live(replicas, reserve) <==> IsLive(pods, replicas, Elems(reserve))
  {
    LiveIs(replicas, reserve);
    if IsLive(pods, replicas, Elems(reserve)) {
      LiveUnique(pods, Live(replicas, reserve), replicas, Elems(reserve));
    }
  }

  // The ordinals below x that are not reserved.
  function FreeBelow(x: int, reserve: set<int>): (r: set<int>) {
    set y | 0 <= y < x && y !in reserve
  }

  // One pod at a time: it runs when it is not reserved and fewer unreserved
  // ordinals than replicas lie below it.
  lemma {:induction false} LiveMember(replicas: nat, reserve: seq<int>, x: int)
    ensures x in Live(replicas, reserve) <==> 0 <= x && x !in reserve && |FreeBelow(x, Elems(reserve))| < replicas
  {
    LiveIs(replicas, reserve);
    LiveMemberSets(Live(replicas, reserve), replicas, Elems(reserve), x);
  }

  lemma {:induction false} LiveMemberSets(pods: set<int>, replicas: nat, reserve: set<int>, x: int)
    requires IsLive(pods, replicas, reserve)
    ensures x in pods <==> 0 <= x && x !in reserve && |FreeBelow(x, reserve)| < replicas
  {
    var below := FreeBelow(x, reserve);
    if x in pods {
      assert below <= pods - {x};
      SubsetSize(below, pods - {x});
    } else if 0 <= x && x !in reserve {
      // Every pod lies below x, or x would have been skipped.
      assert forall y :: y in pods ==> y < x;
      SubsetSize(pods, below);
    }
  }

  // A strictly ascending list of the live ordinals is the pod list.
  lemma {:induction false} LivePodsUnique(pods: seq<int>, replicas: nat, reserve: seq<int>)
    requires StrictlyAscending(pods) && Elems(pods) == Live(replicas, reserve)
    ensures pods == LivePods(replicas, reserve)
  {
    LiveIs(replicas, reserve);
    StrictlyAscendingUnique(pods, LivePods(replicas, reserve));
  }

  // Ascending naturals with none missing below the p-th.
  lemma {:induction false} NoGaps(pods: seq<int>, p: nat, k: nat)
    requires StrictlyAscending(pods) && k <= p < |pods| && pods[0] >= 0
    requires forall x :: 0 <= x < pods[p] ==> x in pods
    ensures pods[k] == k
  {
    if k > 0 {
      NoGaps(pods, p, k - 1);
    }
    assert k < pods[k] ==> k in pods;
    assert forall i :: 0 <= i < |pods| ==> (i < k ==> pods[i] <= pods[k - 1]) && (i >= k ==> pods[i] >= pods[k]);
  }

  // With nothing reserved below them the pods are numbered 0, 1, 2, ...
  lemma {:induction false} OrdinalAtLeastPosition(pods: seq<int>, k: nat)
    requires StrictlyAscending(pods) && k < |pods| && pods[0] >= 0
    ensures pods[k] >= k
  {
    if k > 0 {
      OrdinalAtLeastPosition(pods, k - 1);
    }
  }
}
