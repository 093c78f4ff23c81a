// The slot range codec that persists a topology: SlotsToString prints a list of
// slots as ranges ("5", "10-20"), SlotsToInt reads such a list back.
module SlotRanges {
  import opened Text
  import opened Counting

  datatype Run = Run(first: int, last: int)

  // The integers from first to last, none when first > last.
  function Interval(first: int, last: int): (s: seq<int>)
    ensures forall x :: x in s <==> first <= x <= last
    ensures s != [] ==> s[0] == first
    decreases last - first + 1
  {
    if first > last then [] else Interval(first, last - 1) + [last]
  }

  // ----- printing -----

  // The runs of consecutive slots in an ascending list; `first`..`prev` is the
  // run being read and `rest` is what follows it.
  function Runs(first: int, prev: int, rest: seq<int>): (r: seq<Run>)
    ensures r != []
    decreases |rest|
  {
    if rest == [] then [Run(first, prev)]
    else if rest[0] - prev != 1 then [Run(first, prev)] + Runs(rest[0], rest[0], rest[1..])
    else Runs(first, rest[0], rest[1..])
  }

  function PrintRun(run: Run): (s: string) {
    if run.first != run.last then Itoa(run.first) + "-" + Itoa(run.last) else Itoa(run.first)
  }

  function PrintRuns(runs: seq<Run>): (s: seq<string>)
    ensures |s| == |runs|
    ensures forall i :: 0 <= i < |runs| ==> s[i] == PrintRun(runs[i])
  {
    seq(|runs|, i requires 0 <= i < |runs| => PrintRun(runs[i]))
  }

  lemma {:induction false} PrintRunsConcat(a: seq<Run>, b: seq<Run>)
    ensures PrintRuns(a + b) == PrintRuns(a) + PrintRuns(b)
  {
  }

  lemma {:induction false} PrintRunsSnoc(a: seq<Run>, run: Run)
    ensures PrintRuns(a + [run]) == PrintRuns(a) + [PrintRun(run)]
  {
  }

  function RunsOf(sorted: seq<int>): (r: seq<Run>) {
    if sorted == [] then [] else Runs(sorted[0], sorted[0], sorted[1..])
  }

  function Encode(slots: seq<int>): (s: seq<string>) {
    PrintRuns(RunsOf(Sorted(slots)))
  }

  // A slot without a neighbour is printed as a number alone.
  lemma {:induction false} LoneSlot(slots: seq<int>, x: int)
    requires x in slots && x - 1 !in slots && x + 1 !in slots
    ensures Itoa(x) in Encode(slots)
  {
    var t := Sorted(slots);
    SortedSorts(slots);
    assert forall y :: y in t <==> y in multiset(t);
    assert forall y :: y in slots <==> y in multiset(slots);
    LoneRun(t[0], t[0], t[1..], x);
    var runs := RunsOf(t);
    var i :| 0 <= i < |runs| && runs[i] == Run(x, x);
    assert PrintRuns(runs)[i] == Itoa(x);
  }

  lemma {:induction false} LoneRun(first: int, prev: int, rest: seq<int>, x: int)
    requires x == first == prev || (x in rest && x - 1 != prev)
    requires x - 1 !in rest && x + 1 !in rest
    ensures Run(x, x) in Runs(first, prev, rest)
    decreases |rest|
  {
    if rest != [] {
      assert rest == [rest[0]] + rest[1..];
      if rest[0] - prev == 1 {
        LoneRun(first, rest[0], rest[1..], x);
      } else if !(x == first == prev) {
        LoneRun(rest[0], rest[0], rest[1..], x);
      }
    }
  }

  // sort.Ints works in place.
  method SortInts(a: array<int>)
    modifies a
    ensures a[..] == Sorted(old(a[..]))
  {
    var s := Sorted(a[..]);
    forall i | 0 <= i < a.Length {
      a[i] := s[i];
    }
  }

  method SlotsToString(slots: array<int>) returns (result: seq<string>)
    modifies slots
    ensures slots[..] == Sorted(old(slots[..]))
    ensures result == Encode(old(slots[..]))
  {
    SortInts(slots);
    ghost var t := slots[..];
    var l := slots.Length;
    result := [];
    if l == 0 {
      return;
    }
    var head := slots[0];
    ghost var runs: seq<Run> := [];
    for i := 1 to l
      invariant slots[..] == t && Printed(t, i, head, runs, result)
    {
      PrintedStep(t, i, head, runs, result);
      if slots[i] - slots[i - 1] != 1 {
        var s := FormatRange(head, slots[i - 1]);
        result := result + [s];
        runs := runs + [Run(head, t[i - 1])];
        head := slots[i];
      }
    }
    PrintedAll(t, head, runs, result);
    var s := FormatRange(head, slots[l - 1]);
    result := result + [s];
  }

  // Before slot i: `runs` are the closed runs, `result` prints them, and `head`
  // starts the open one.
  ghost predicate Printed(t: seq<int>, i: nat, head: int, runs: seq<Run>, result: seq<string>) {
    1 <= i <= |t| && result == PrintRuns(runs) && runs + Runs(head, t[i - 1], t[i..]) == RunsOf(t)
  }

  lemma {:induction false} PrintedStep(t: seq<int>, i: nat, head: int, runs: seq<Run>, result: seq<string>)
    requires i < |t| && Printed(t, i, head, runs, result)
    ensures t[i] - t[i - 1] == 1 ==> Printed(t, i + 1, head, runs, result)
    ensures t[i] - t[i - 1] != 1 ==>
      Printed(t, i + 1, t[i], runs + [Run(head, t[i - 1])], result + [PrintRun(Run(head, t[i - 1]))])
  {
    RunsStep(head, t, i);
    if t[i] - t[i - 1] != 1 {
      PrintRunsSnoc(runs, Run(head, t[i - 1]));
      RunsRegroup(runs, Run(head, t[i - 1]), Runs(t[i], t[i], t[i + 1..]));
    }
  }

  lemma {:induction false} PrintedAll(t: seq<int>, head: int, runs: seq<Run>, result: seq<string>)
    requires Printed(t, |t|, head, runs, result)
    ensures result + [PrintRun(Run(head, t[|t| - 1]))] == PrintRuns(RunsOf(t))
  {
    PrintRunsSnoc(runs, Run(head, t[|t| - 1]));
  }

  // The two-way fmt.Sprintf that the code writes out at both places.
  method FormatRange(head: int, last: int) returns (s: string)
    ensures s == PrintRun(Run(head, last))
  {
    if head != last {
      s := Itoa(head) + "-" + Itoa(last);
    } else {
      s := Itoa(head);
    }
  }

  lemma {:induction false} RunsStep(head: int, t: seq<int>, i: nat)
    requires 1 <= i < |t|
    ensures Runs(head, t[i - 1], t[i..])
         == if t[i] - t[i - 1] != 1 then [Run(head, t[i - 1])] + Runs(t[i], t[i], t[i + 1..])
            else Runs(head, t[i], t[i + 1..])
  {
    assert t[i..][1..] == t[i + 1..];
  }

  lemma {:induction false} RunsRegroup(a: seq<Run>, r: Run, b: seq<Run>)
    ensures a + ([r] + b) == a + [r] + b
  {
  }

  // ----- reading -----

  function ParseRange(s: string): (slots: seq<int>) {
    var field := Split(s, '-');
    if |field| == 1 then [AtoiOrZero(field[0])]
    else Interval(AtoiOrZero(field[0]), AtoiOrZero(field[1]))
  }

  function Decode(ranges: seq<string>): (slots: seq<int>) {
    if ranges == [] then [] else ParseRange(ranges[0]) + Decode(ranges[1..])
  }

  lemma {:induction false} DecodeConcat(a: seq<string>, b: seq<string>)
    ensures Decode(a + b) == Decode(a) + Decode(b)
  {
    if a == [] {
      assert a + b == b;
    } else {
      assert (a + b)[1..] == a[1..] + b;
      DecodeConcat(a[1..], b);
    }
  }

  // The inner loop: every slot of a range.
  method AppendRange(before: seq<int>, begin: int, end: int) returns (result: seq<int>)
    ensures result == before + Interval(begin, end)
  {
    result := before;
    var i := begin;
    while i <= end
      invariant begin <= i && (i <= end + 1 || i == begin)
      invariant result == before + Interval(begin, i - 1)
      decreases end - i + 1
    {
      result := result + [i];
      i := i + 1;
    }
    assert Interval(begin, i - 1) == Interval(begin, end);
  }

  lemma {:induction false} DecodeSnoc(slots: seq<string>, k: nat)
    requires k < |slots|
    ensures Decode(slots[..k + 1]) == Decode(slots[..k]) + ParseRange(slots[k])
  {
    assert slots[..k + 1] == slots[..k] + [slots[k]];
    DecodeConcat(slots[..k], [slots[k]]);
    assert [slots[k]][1..] == [];
  }

  method SlotsToInt(slots: seq<string>) returns (result: seq<int>)
    ensures result == Decode(slots)
  {
    result := [];
    for k := 0 to |slots|
      invariant result == Decode(slots[..k])
    {
      DecodeSnoc(slots, k);
      var field := Split(slots[k], '-');
      if |field| == 1 {
        var slotNum := AtoiOrZero(field[0]);
        result := result + [slotNum];
      } else {
        var begin, end := AtoiOrZero(field[0]), AtoiOrZero(field[1]);
        result := AppendRange(result, begin, end);
      }
    }
    assert slots[..|slots|] == slots;
  }

  // What is not a number is read as slot 0, and a range that ends before it begins as
  // no slot.
  lemma {:induction false} UnreadableRange(s: string, a: nat, b: nat)
    requires '-' !in s && (s == "" || (s[0] != '+' && !AllDigits(s))) && b < a
    ensures Decode([s]) == [0] && Decode([Itoa(a) + "-" + Itoa(b)]) == []
  {
    assert Atoi(s) == None;
    NoSeparator(a);
    NoSeparator(b);
    AtoiItoa(a);
    AtoiItoa(b);
    SplitTwo(Itoa(a), Itoa(b), '-');
    DecodeOne(s);
    DecodeOne(Itoa(a) + "-" + Itoa(b));
  }

  lemma {:induction false} DecodeOne(s: string)
    ensures Decode([s]) == ParseRange(s)
  {
    assert Decode([s][1..]) == [];
  }

  // ----- round trip -----

  predicate NonNegative(s: seq<int>) {
    forall i :: 0 <= i < |s| ==> s[i] >= 0
  }

  lemma {:induction false} ParsePrintedRun(run: Run)
    requires 0 <= run.first <= run.last
    ensures ParseRange(PrintRun(run)) == Interval(run.first, run.last)
  {
    AtoiItoa(run.first);
    AtoiItoa(run.last);
    NoSeparator(run.first);
    NoSeparator(run.last);
    if run.first != run.last {
      assert Itoa(run.first) + "-" + Itoa(run.last) == Itoa(run.first) + ['-'] + Itoa(run.last);
      SplitField(Itoa(run.first), '-', Itoa(run.last));
    } else {
      assert Interval(run.first, run.first) == [run.first];
    }
  }

  lemma {:induction false} DecodeCons(x: string, tail: seq<string>)
    ensures Decode([x] + tail) == ParseRange(x) + Decode(tail)
  {
    assert ([x] + tail)[1..] == tail;
  }

  lemma {:induction false} IntervalOne(s: seq<int>)
    requires s != []
    ensures Interval(s[0], s[0]) + s[1..] == s
  {
    assert Interval(s[0], s[0]) == [s[0]];
  }

  lemma {:induction false} DecodeOneMore(run: Run, tail: seq<Run>)
    requires 0 <= run.first <= run.last
    ensures Decode(PrintRuns([run] + tail)) == Interval(run.first, run.last) + Decode(PrintRuns(tail))
  {
    PrintRunsConcat([run], tail);
    assert PrintRuns([run]) == [PrintRun(run)];
    DecodeCons(PrintRun(run), PrintRuns(tail));
    ParsePrintedRun(run);
  }

  lemma {:induction false} DecodeBreak(first: int, prev: int, rest: seq<int>)
    requires 0 <= first <= prev && rest != [] && rest[0] - prev != 1
    requires Decode(PrintRuns(Runs(rest[0], rest[0], rest[1..]))) == Interval(rest[0], rest[0]) + rest[1..]
    ensures Decode(PrintRuns(Runs(first, prev, rest))) == Interval(first, prev) + rest
  {
    IntervalOne(rest);
    DecodeOneMore(Run(first, prev), Runs(rest[0], rest[0], rest[1..]));
  }

  lemma {:induction false} IntervalGrows(first: int, prev: int, rest: seq<int>)
    requires first <= prev && rest != [] && rest[0] == prev + 1
    ensures Interval(first, rest[0]) + rest[1..] == Interval(first, prev) + rest
  {
    assert Interval(first, rest[0]) == Interval(first, prev) + [rest[0]];
  }

  lemma {:induction false} DecodeRuns(first: int, prev: int, rest: seq<int>)
    requires 0 <= first <= prev && NonNegative(rest)
    ensures Decode(PrintRuns(Runs(first, prev, rest))) == Interval(first, prev) + rest
    decreases |rest|
  {
    if rest == [] {
      DecodeOneMore(Run(first, prev), []);
      assert [Run(first, prev)] + [] == [Run(first, prev)];
    } else if rest[0] - prev != 1 {
      DecodeRuns(rest[0], rest[0], rest[1..]);
      DecodeBreak(first, prev, rest);
    } else {
      DecodeRuns(first, rest[0], rest[1..]);
      IntervalGrows(first, prev, rest);
    }
  }

  lemma {:induction false} SortedKeepsSign(slots: seq<int>)
    ensures NonNegative(Sorted(slots)) <==> NonNegative(slots)
  {
    SortedSorts(slots);
    SameElements(Sorted(slots), slots);
    assert forall i :: 0 <= i < |slots| ==> slots[i] in Elems(slots);
    assert forall i :: 0 <= i < |slots| ==> Sorted(slots)[i] in Elems(Sorted(slots));
  }

  lemma {:induction false} FieldsAreNonNegative(s: string)
    requires '-' !in s
    ensures AtoiOrZero(s) >= 0
  {
  }

  lemma {:induction false} DecodedIsNonNegative(ranges: seq<string>)
    ensures NonNegative(Decode(ranges))
  {
    if ranges != [] {
      DecodedIsNonNegative(ranges[1..]);
      var field := Split(ranges[0], '-');
      FieldsAreNonNegative(field[0]);
      var slots := ParseRange(ranges[0]);
      assert forall i :: 0 <= i < |slots| ==> slots[i] in slots;
    }
  }

  // Reading back what was printed gives the sorted slots, duplicates included,
  // exactly when no slot is negative.
  lemma {:induction false} RoundTrip(slots: seq<int>)
    ensures Decode(Encode(slots)) == Sorted(slots) <==> NonNegative(slots)
  {
    var t := Sorted(slots);
    SortedKeepsSign(slots);
    if NonNegative(slots) && t != [] {
      DecodeRuns(t[0], t[0], t[1..]);
      assert Interval(t[0], t[0]) + t[1..] == t;
    }
    DecodedIsNonNegative(Encode(slots));
  }

  // Printing what was read from a printed list gives that list again.
  lemma {:induction false} PrintAfterParse(slots: seq<int>)
    requires NonNegative(slots)
    ensures Encode(Decode(Encode(slots))) == Encode(slots)
  {
    RoundTrip(slots);
    SortedSorts(slots);
    SortedOfAscending(Sorted(slots));
  }

  // Two lists print alike exactly when they hold the same slots.
  lemma {:induction false} EncodeInjective(a: seq<int>, b: seq<int>)
    requires NonNegative(a) && NonNegative(b)
    ensures Encode(a) == Encode(b) <==> multiset(a) == multiset(b)
  {
    RoundTrip(a);
    RoundTrip(b);
    SortedSorts(a);
    SortedSorts(b);
    if multiset(a) == multiset(b) {
      AscendingUnique(Sorted(a), Sorted(b));
    }
  }

  // ----- minimality -----

  // The slots of `rest` that start a run when they follow `prev`: the one below
  // is neither `prev` nor listed.
  function RunStarts(prev: int, rest: seq<int>): (r: set<int>) {
    set x | x in rest && OpensRun(prev, rest, x)
  }

  predicate OpensRun(prev: int, rest: seq<int>, x: int) {
    x - 1 != prev && x - 1 !in rest
  }

  // A strictly ascending list has one run to each slot that starts one.
  lemma {:induction false} RunsAtMostStarts(first: int, prev: int, rest: seq<int>)
    requires StrictlyAscending(rest) && (rest != [] ==> prev < rest[0])
    ensures |Runs(first, prev, rest)| <= 1 + |RunStarts(prev, rest)|
    decreases |rest|
  {
    if rest != [] {
      var next, tail := rest[0], rest[1..];
      assert rest == [next] + tail;
      var inner := RunStarts(next, tail);
      forall x | x in inner
        ensures x in RunStarts(prev, rest) && x > next
      {
      }
      if next - prev != 1 {
        RunsAtMostStarts(next, next, tail);
        assert next in RunStarts(prev, rest);
        SubsetSize(inner + {next}, RunStarts(prev, rest));
      } else {
        RunsAtMostStarts(first, next, tail);
        SubsetSize(inner, RunStarts(prev, rest));
      }
    }
  }

  // What one range string reads as: an interval whose first slot is Start.
  function Start(range: string): (x: int) {
    AtoiOrZero(Split(range, '-')[0])
  }

  function Starts(ranges: seq<string>): (r: seq<int>)
    ensures |r| == |ranges|
    ensures forall i :: 0 <= i < |ranges| ==> r[i] == Start(ranges[i])
  {
    seq(|ranges|, i requires 0 <= i < |ranges| => Start(ranges[i]))
  }

  // Every slot that starts a run is the first slot of some range string.
  lemma {:induction false} StartIsListed(ranges: seq<string>, all: set<int>, x: int)
    requires x in Decode(ranges) && Elems(Decode(ranges)) <= all && x - 1 !in all
    ensures x in Starts(ranges)
  {
    var head := ParseRange(ranges[0]);
    assert Decode(ranges) == head + Decode(ranges[1..]);
    if x in head {
      assert Starts(ranges)[0] == Start(ranges[0]);
      assert head[0] == Start(ranges[0]);
      if x != Start(ranges[0]) {
        assert false;
      }
    } else {
      StartIsListed(ranges[1..], all, x);
      assert Starts(ranges)[1..] == Starts(ranges[1..]);
    }
  }

  lemma {:induction false} StartsAreListed(head: int, rest: seq<int>, ranges: seq<string>)
    requires StrictlyAscending([head] + rest)
    requires Elems(Decode(ranges)) == Elems([head] + rest)
    ensures {head} + RunStarts(head, rest) <= Elems(Starts(ranges))
  {
    forall x | x in {head} + RunStarts(head, rest)
      ensures x in Elems(Starts(ranges))
    {
      assert x in Elems([head] + rest);
      StartOfRun(head, rest, x);
      StartIsListed(ranges, Elems([head] + rest), x);
    }
  }

  lemma {:induction false} RunsAtMostRanges(head: int, rest: seq<int>, ranges: seq<string>)
    requires StrictlyAscending([head] + rest)
    requires Elems(Decode(ranges)) == Elems([head] + rest)
    ensures |Runs(head, head, rest)| <= |ranges|
  {
    var t := [head] + rest;
    assert rest == t[1..];
    assert forall i :: 0 <= i < |rest| ==> t[i + 1] == rest[i] && t[0] < t[i + 1];
    RunsAtMostStarts(head, head, rest);
    StartsAreListed(head, rest, ranges);
    var starts := RunStarts(head, rest);
    assert head !in starts;
    SubsetSize({head} + starts, Elems(Starts(ranges)));
    ElemsAtMost(Starts(ranges));
  }

  // No shorter list of range strings reads as the same set of slots.
  lemma {:induction false} Minimal(slots: seq<int>, ranges: seq<string>)
    requires Distinct(slots)
    requires Elems(Decode(ranges)) == Elems(slots)
    ensures |Encode(slots)| <= |ranges|
  {
    var t := Sorted(slots);
    if t != [] {
      SortedSorts(slots);
      SameElements(t, slots);
      DistinctSorted(slots);
      assert t == [t[0]] + t[1..];
      RunsAtMostRanges(t[0], t[1..], ranges);
    }
  }

  lemma {:induction false} StartOfRun(head: int, rest: seq<int>, x: int)
    requires StrictlyAscending([head] + rest)
    requires x == head || x in RunStarts(head, rest)
    ensures x - 1 !in [head] + rest
  {
    var t := [head] + rest;
    assert x == head ==> forall i :: 0 <= i < |t| ==> t[0] <= t[i];
  }

  lemma {:induction false} DistinctSorted(slots: seq<int>)
    requires Distinct(slots)
    ensures StrictlyAscending(Sorted(slots))
  {
    var t := Sorted(slots);
    SortedSorts(slots);
    SameElements(t, slots);
    ElemsOfDistinct(slots);
    if i, j :| 0 <= i < j < |t| && t[i] == t[j] {
      var u := t[..j] + t[j + 1..];
      assert t == t[..j] + [t[j]] + t[j + 1..];
      assert u[i] == t[i];
      assert Elems(u) == Elems(t);
      ElemsAtMost(u);
      assert false;
    }
  }

  // The negative slot -1 does not come back.
  lemma {:induction false} NegativeSlotIsLost()
    ensures Decode(Encode([-1])) != Sorted([-1])
  {
    assert [-1][0] == -1;
    RoundTrip([-1]);
  }
}
