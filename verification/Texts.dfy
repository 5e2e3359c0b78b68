/** Decimal numbers, letter case, and sorting of names, as the configuration code uses them. */
module Texts {
  import opened Wrappers

  function Digit(d: nat): char
    requires d < 10
  {
    "0123456789"[d]
  }

  function Decimal(n: nat): (s: string)
    ensures s != []
    ensures forall c | c in s :: '0' <= c <= '9'
  {
    if n < 10 then [Digit(n)] else Decimal(n / 10) + [Digit(n % 10)]
  }

  function ParseDecimal(s: string): Option<nat> {
    if s == [] then None
    else
      var c := s[|s| - 1];
      if !('0' <= c <= '9') then None
      else if |s| == 1 then Some(c as nat - '0' as nat)
      else
        var high := ParseDecimal(s[..|s| - 1]);
        if high.None? then None else Some(high.value * 10 + (c as nat - '0' as nat))
  }

  lemma {:induction false} DecimalRoundTrip(n: nat)
    ensures ParseDecimal(Decimal(n)) == Some(n)
  {
    if n >= 10 {
      DecimalRoundTrip(n / 10);
      assert Decimal(n)[..|Decimal(n)| - 1] == Decimal(n / 10);
    }
  }

  function LowerChar(c: char): char {
    if 'A' <= c <= 'Z' then (c as int + 32) as char else c
  }

  function Lower(s: string): string {
    seq(|s|, i requires 0 <= i < |s| => LowerChar(s[i]))
  }

  /** What follows the last `mark`, and what precedes it (`rsplit(mark, 1)`). */
  function AfterLast(s: string, mark: char): Option<string> {
    if s == [] then None
    else if s[|s| - 1] == mark then Some([])
    else
      var rest := AfterLast(s[..|s| - 1], mark);
      if rest.None? then None else Some(rest.value + [s[|s| - 1]])
  }

  lemma {:induction false} AfterLastAppend(prefix: string, mark: char, suffix: string)
    requires mark !in suffix
    ensures AfterLast(prefix + [mark] + suffix, mark) == Some(suffix)
  {
    var s := prefix + [mark] + suffix;
    if suffix == [] {
      assert s == prefix + [mark];
    } else {
      var shorter := suffix[..|suffix| - 1];
      AfterLastAppend(prefix, mark, shorter);
      assert s[..|s| - 1] == prefix + [mark] + shorter;
      assert shorter + [suffix[|suffix| - 1]] == suffix;
    }
  }

  function BeforeFirst(s: string, mark: char): string {
    if s == [] || s[0] == mark then [] else [s[0]] + BeforeFirst(s[1..], mark)
  }

  function Count(s: string, mark: char): nat {
    if s == [] then 0 else (if s[0] == mark then 1 else 0) + Count(s[1..], mark)
  }

  // --- sorting names --------------------------------------------------------------------------

  predicate AtMost(a: string, b: string) {
    a == [] || (b != [] && (a[0] < b[0] || (a[0] == b[0] && AtMost(a[1..], b[1..]))))
  }

  function InsertBy<T>(le: (T, T) -> bool, x: T, sorted: seq<T>): seq<T> {
    if sorted == [] || le(x, sorted[0]) then [x] + sorted
    else [sorted[0]] + InsertBy(le, x, sorted[1..])
  }

  function SortBy<T>(le: (T, T) -> bool, s: seq<T>): seq<T> {
    if s == [] then [] else InsertBy(le, s[0], SortBy(le, s[1..]))
  }

  function Sorted(names: seq<string>): seq<string> {
    SortBy(AtMost, names)
  }

  predicate InOrder<T>(le: (T, T) -> bool, s: seq<T>) {
    |s| <= 1 || (le(s[0], s[1]) && InOrder(le, s[1..]))
  }

  ghost predicate TotalOrder<T(!new)>(le: (T, T) -> bool) {
    && (forall a, b :: le(a, b) || le(b, a))
    && (forall a, b, c :: le(a, b) && le(b, c) ==> le(a, c))
  }

  lemma {:induction false} AtMostTotal(a: string, b: string)
    ensures AtMost(a, b) || AtMost(b, a)
  {
    if a != [] && b != [] && a[0] == b[0] {
      AtMostTotal(a[1..], b[1..]);
    }
  }

  lemma {:induction false} AtMostTransitive(a: string, b: string, c: string)
    requires AtMost(a, b) && AtMost(b, c)
    ensures AtMost(a, c)
  {
    if a != [] && a[0] == b[0] == c[0] {
      AtMostTransitive(a[1..], b[1..], c[1..]);
    }
  }

  lemma {:induction false} AtMostAntisymmetric(a: string, b: string)
    requires AtMost(a, b) && AtMost(b, a)
    ensures a == b
  {
    if a != [] {
      AtMostAntisymmetric(a[1..], b[1..]);
      assert a == [a[0]] + a[1..] && b == [b[0]] + b[1..];
    }
  }

  lemma AtMostIsTotalOrder()
    ensures TotalOrder(AtMost)
  {
    forall a, b
      ensures AtMost(a, b) || AtMost(b, a)
    {
      AtMostTotal(a, b);
    }
    forall a, b, c | AtMost(a, b) && AtMost(b, c)
      ensures AtMost(a, c)
    {
      AtMostTransitive(a, b, c);
    }
  }

  /** Either of the two is at most the other, at the point where an insertion compares them. */
  ghost predicate Comparable<T>(le: (T, T) -> bool, x: T, s: seq<T>) {
    forall y | y in s :: le(x, y) || le(y, x)
  }

  lemma {:induction false} InsertInOrder<T>(le: (T, T) -> bool, x: T, sorted: seq<T>)
    requires Comparable(le, x, sorted) && InOrder(le, sorted)
    ensures InOrder(le, InsertBy(le, x, sorted))
    ensures InsertBy(le, x, sorted)[0] == if sorted == [] || le(x, sorted[0]) then x else sorted[0]
  {
    if sorted == [] || le(x, sorted[0]) {
      assert ([x] + sorted)[1..] == sorted;
    } else {
      assert forall y | y in sorted[1..] :: y in sorted;
      InsertInOrder(le, x, sorted[1..]);
      assert InsertBy(le, x, sorted)[1..] == InsertBy(le, x, sorted[1..]);
      assert sorted[0] in sorted;
    }
  }

  lemma {:induction false} InsertHasSame<T>(le: (T, T) -> bool, x: T, sorted: seq<T>)
    ensures multiset(InsertBy(le, x, sorted)) == multiset(sorted) + multiset{x}
  {
    if sorted != [] && !le(x, sorted[0]) {
      InsertHasSame(le, x, sorted[1..]);
      assert sorted == [sorted[0]] + sorted[1..];
    }
  }

  lemma {:induction false} SortBySorts<T(!new)>(le: (T, T) -> bool, s: seq<T>)
    requires TotalOrder(le)
    ensures InOrder(le, SortBy(le, s))
    ensures multiset(SortBy(le, s)) == multiset(s)
  {
    if s != [] {
      SortBySorts(le, s[1..]);
      InsertInOrder(le, s[0], SortBy(le, s[1..]));
      InsertHasSame(le, s[0], SortBy(le, s[1..]));
      assert s == [s[0]] + s[1..];
    }
  }

  lemma SortByHasSame<T(!new)>(le: (T, T) -> bool, s: seq<T>, x: T)
    requires TotalOrder(le)
    ensures x in SortBy(le, s) <==> x in s
    ensures |SortBy(le, s)| == |s|
  {
    SortBySorts(le, s);
    assert x in multiset(SortBy(le, s)) <==> x in multiset(s);
    assert |multiset(SortBy(le, s))| == |multiset(s)|;
  }

  lemma {:induction false} SortingAgainChangesNothing<T>(le: (T, T) -> bool, s: seq<T>)
    requires InOrder(le, s)
    ensures SortBy(le, s) == s
  {
    if s != [] {
      SortingAgainChangesNothing(le, s[1..]);
      assert s == [s[0]] + s[1..];
    }
  }

  lemma {:induction false} OrderedPairs<T(!new)>(le: (T, T) -> bool, s: seq<T>, i: nat, j: nat)
    requires TotalOrder(le) && InOrder(le, s) && i < j < |s|
    ensures le(s[i], s[j])
  {
    if i > 0 {
      OrderedPairs(le, s[1..], i - 1, j - 1);
    } else if j > 1 {
      OrderedPairs(le, s[1..], 0, j - 1);
    }
  }
}
