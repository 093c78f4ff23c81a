// The string routines of the Go standard library that the operator's names and
// slot ranges pass through: strconv.Itoa, strconv.Atoi, strings.Split,
// strings.SplitN and strings.LastIndex. Integers are unbounded.
module Text {

  datatype Option<+T> = None | Some(value: T)

  // ----- decimal numbers -----

  function Digit(d: int): (c: char)
    requires 0 <= d < 10
  {
    (48 + d) as char
  }

  predicate IsDigit(c: char) {
    '0' <= c <= '9'
  }

  function DigitValue(c: char): (d: int)
    requires IsDigit(c)
    ensures 0 <= d < 10
  {
    c as int - 48
  }

  predicate AllDigits(s: string) {
    forall i :: 0 <= i < |s| ==> IsDigit(s[i])
  }

  function Decimal(n: nat): (s: string)
    ensures |s| > 0 && AllDigits(s)
  {
    if n < 10 then [Digit(n)] else Decimal(n / 10) + [Digit(n % 10)]
  }

  // strconv.Itoa, and fmt.Sprintf("%d", n).
  function Itoa(n: int): (s: string)
    ensures n >= 0 ==> |s| > 0 && AllDigits(s)
  {
    if n < 0 then "-" + Decimal(-n) else Decimal(n)
  }

  function Value(s: string): (n: nat)
    requires AllDigits(s)
  {
    if s == [] then 0
    else Value(s[..|s| - 1]) * 10 + DigitValue(s[|s| - 1])
  }

  // strconv.Atoi: an optional sign, then at least one digit and nothing else.
  function Atoi(s: string): (r: Option<int>) {
    if s != [] && s[0] == '-' then
      if |s| > 1 && AllDigits(s[1..]) then Some(0 - Value(s[1..])) else None
    else if s != [] && s[0] == '+' then
      if |s| > 1 && AllDigits(s[1..]) then Some(Value(s[1..])) else None
    else if s != [] && AllDigits(s) then Some(Value(s))
    else None
  }

  // `n, _ := strconv.Atoi(s)`: a syntax error leaves zero.
  function AtoiOrZero(s: string): (n: int) {
    match Atoi(s)
    case Some(v) => v
    case None => 0
  }

  lemma {:induction false} ValueOfDecimal(n: nat)
    ensures Value(Decimal(n)) == n
  {
    if n >= 10 {
      ValueOfDecimal(n / 10);
      var s := Decimal(n);
      assert s[..|s| - 1] == Decimal(n / 10);
      assert s[|s| - 1] == Digit(n % 10);
    }
  }

  // Reading a printed integer gives the integer back, negative ones included.
  lemma {:induction false} AtoiItoa(n: int)
    ensures Atoi(Itoa(n)) == Some(n)
    ensures AtoiOrZero(Itoa(n)) == n
  {
    if n < 0 {
      ValueOfDecimal(-n);
      assert Itoa(n)[1..] == Decimal(-n);
    } else {
      ValueOfDecimal(n);
      assert IsDigit(Itoa(n)[0]);
    }
  }

  lemma {:induction false} ItoaInjective(a: int, b: int)
    requires Itoa(a) == Itoa(b)
    ensures a == b
  {
    AtoiItoa(a);
    AtoiItoa(b);
  }

  // A printed non-negative integer holds none of the separators in use.
  lemma {:induction false} NoSeparator(n: nat)
    ensures '-' !in Itoa(n) && ' ' !in Itoa(n) && ':' !in Itoa(n)
  {
  }

  // ----- splitting -----

  function IndexOf(s: string, c: char): (i: nat)
    requires c in s
    ensures i < |s| && s[i] == c && c !in s[..i]
  {
    if s[0] == c then 0
    else
      assert s == [s[0]] + s[1..];
      var i := IndexOf(s[1..], c) + 1;
      assert s[..i] == [s[0]] + s[1..][..i - 1];
      i
  }

  // strings.Split(s, sep) for a one-character separator.
  function Split(s: string, c: char): (fields: seq<string>)
    ensures |fields| >= 1
    ensures forall k :: 0 <= k < |fields| ==> c !in fields[k]
    decreases |s|
  {
    if c !in s then [s]
    else
      var i := IndexOf(s, c);
      [s[..i]] + Split(s[i + 1..], c)
  }

  // strings.SplitN(s, sep, n): at most n fields, the last one unsplit.
  function SplitN(s: string, c: char, n: nat): (fields: seq<string>)
    requires n >= 1
    ensures 1 <= |fields| <= n
    decreases n
  {
    if n == 1 || c !in s then [s]
    else
      var i := IndexOf(s, c);
      [s[..i]] + SplitN(s[i + 1..], c, n - 1)
  }

  lemma {:induction false} IndexAfterField(a: string, c: char, b: string)
    requires c !in a
    ensures c in a + [c] + b
    ensures IndexOf(a + [c] + b, c) == |a|
  {
    var s := a + [c] + b;
    assert s[|a|] == c;
    assert forall k :: 0 <= k < |a| ==> s[k] == a[k];
  }

  lemma {:induction false} SplitField(a: string, c: char, b: string)
    requires c !in a
    ensures Split(a + [c] + b, c) == [a] + Split(b, c)
  {
    IndexAfterField(a, c, b);
    var s := a + [c] + b;
    assert s[..|a|] == a;
    assert s[|a| + 1..] == b;
  }

  lemma {:induction false} SplitNField(a: string, c: char, b: string, n: nat)
    requires c !in a && n >= 2
    ensures SplitN(a + [c] + b, c, n) == [a] + SplitN(b, c, n - 1)
  {
    IndexAfterField(a, c, b);
    var s := a + [c] + b;
    assert s[..|a|] == a;
    assert s[|a| + 1..] == b;
  }

  lemma {:induction false} SplitTwo(a: string, b: string, c: char)
    requires c !in a && c !in b
    ensures Split(a + [c] + b, c) == [a, b]
  {
    SplitField(a, c, b);
  }

  lemma {:induction false} SplitFour(a: string, b: string, d: string, e: string, c: char)
    requires c !in a && c !in b && c !in d && c !in e
    ensures Split(a + [c] + (b + [c] + (d + [c] + e)), c) == [a, b, d, e]
  {
    var s := d + [c] + e;
    var t := b + [c] + s;
    SplitTwo(d, e, c);
    SplitField(b, c, s);
    SplitField(a, c, t);
  }

  lemma {:induction false} SplitNTwo(a: string, b: string, c: char)
    requires c !in a
    ensures SplitN(a + [c] + b, c, 2) == [a, b]
  {
    SplitNField(a, c, b, 2);
  }

  lemma {:induction false} SplitNFour(a: string, b: string, d: string, e: string, c: char)
    requires c !in a && c !in b && c !in d
    ensures SplitN(a + [c] + (b + [c] + (d + [c] + e)), c, 4) == [a, b, d, e]
  {
    var s := d + [c] + e;
    var t := b + [c] + s;
    SplitNTwo(d, e, c);
    SplitNField(b, c, s, 3);
    SplitNField(a, c, t, 4);
  }

  lemma {:induction false} CutAtIndex(s: string, c: char)
    requires c in s
    ensures var i := IndexOf(s, c);
            s == s[..i] + [c] + s[i + 1..] && c !in s[..i] && |s[i + 1..]| < |s|
  {
  }

  lemma {:induction false} Regroup(a: string, c: char, b: string, d: string)
    ensures a + [c] + b + [c] + d == a + [c] + (b + [c] + d)
  {
  }

  lemma {:induction false} SplitLastParts(head: string, c: char, rest: string, a: string)
    requires c !in head && Split(rest + [c] + a, c) == Split(rest, c) + [a]
    ensures Split(head + [c] + rest + [c] + a, c) == Split(head + [c] + rest, c) + [a]
  {
    Regroup(head, c, rest, a);
    SplitField(head, c, rest);
    SplitField(head, c, rest + [c] + a);
    assert [head] + (Split(rest, c) + [a]) == [head] + Split(rest, c) + [a];
  }

  // The last field of a string that ends in one, whatever comes before it.
  lemma {:induction false} SplitLast(p: string, c: char, a: string)
    requires c !in a
    ensures Split(p + [c] + a, c) == Split(p, c) + [a]
    decreases |p|
  {
    if c !in p {
      SplitTwo(p, a, c);
    } else {
      var i := IndexOf(p, c);
      CutAtIndex(p, c);
      SplitLast(p[i + 1..], c, a);
      SplitLastParts(p[..i], c, p[i + 1..], a);
    }
  }

  // ----- last index -----

  // podName[strings.LastIndex(podName, "-")+1:]
  function AfterLast(s: string, c: char): (t: string)
    decreases |s|
  {
    if c !in s then s else AfterLast(s[IndexOf(s, c) + 1..], c)
  }

  lemma {:induction false} AfterLastField(p: string, c: char, a: string)
    requires c !in a
    ensures AfterLast(p + [c] + a, c) == a
    decreases |p|
  {
    if c !in p {
      IndexAfterField(p, c, a);
      assert (p + [c] + a)[|p| + 1..] == a;
    } else {
      var i := IndexOf(p, c);
      var head, rest := p[..i], p[i + 1..];
      CutAtIndex(p, c);
      Regroup(head, c, rest, a);
      IndexAfterField(head, c, rest + [c] + a);
      assert (head + [c] + (rest + [c] + a))[|head| + 1..] == rest + [c] + a;
      AfterLastField(rest, c, a);
    }
  }
}
