/** Sums of counts over maps and over lists of hosts. */
module Totals {
  import opened Traffic

  lemma PlusSwaps(a: Count, b: Count, c: Count)
    ensures a.Plus(b.Plus(c)) == b.Plus(a.Plus(c)) == b.Plus(c).Plus(a)
  {
  }

  lemma PlusAssociates(a: Count, b: Count, c: Count)
    ensures a.Plus(b).Plus(c) == a.Plus(c.Plus(b))
  {
  }

  lemma PlusPairs(a: Count, b: Count, c: Count, d: Count)
    ensures a.Plus(b).Plus(c.Plus(d)) == a.Plus(c).Plus(b.Plus(d))
  {
  }

  ghost function Total<K>(m: map<K, Count>): Count {
    if m == map[] then NOTHING
    else
      var k :| k in m;
      m[k].Plus(Total(m - {k}))
  }

  lemma {:induction false} TotalOne<K>(m: map<K, Count>, k: K)
    requires k in m
    ensures Total(m) == m[k].Plus(Total(m - {k}))
    decreases |m|
  {
    var first :| first in m && Total(m) == m[first].Plus(Total(m - {first}));
    if first != k {
      TotalOne(m - {first}, k);
      TotalOne(m - {k}, first);
      assert m - {first} - {k} == m - {k} - {first};
      PlusSwaps(m[first], m[k], Total(m - {k} - {first}));
    }
  }

  /** Adding to one entry, which may be new, adds to the total. */
  lemma TotalAdd<K>(m: map<K, Count>, k: K, added: Count)
    ensures Total(m[k := (if k in m then m[k] else NOTHING).Plus(added)]) == Total(m).Plus(added)
  {
    var after := m[k := (if k in m then m[k] else NOTHING).Plus(added)];
    TotalOne(after, k);
    assert after - {k} == m - {k};
    if k in m {
      TotalOne(m, k);
    } else {
      assert m - {k} == m;
    }
  }

  lemma {:induction false} TotalOfPart<K>(part: map<K, Count>, m: map<K, Count>)
    requires forall k | k in part :: k in m && m[k] == part[k]
    ensures Total(m).AtLeast(Total(part))
    decreases |part|
  {
    if part != map[] {
      var k :| k in part;
      TotalOfPart(part - {k}, m - {k});
      TotalOne(part, k);
      TotalOne(m, k);
    }
  }

  // --- over a list of hosts ---------------------------------------------------------------------------

  ghost predicate Covers(m: map<string, Count>, names: seq<string>) {
    forall n | n in names :: n in m
  }

  function SumOver(names: seq<string>, m: map<string, Count>): Count
    requires Covers(m, names)
  {
    if names == [] then NOTHING else SumOver(names[..|names| - 1], m).Plus(m[names[|names| - 1]])
  }

  lemma {:induction false} SumAtLeast(names: seq<string>, more: map<string, Count>, less: map<string, Count>)
    requires Covers(more, names) && Covers(less, names)
    requires forall n | n in names :: more[n].AtLeast(less[n])
    ensures SumOver(names, more).AtLeast(SumOver(names, less))
  {
    if names != [] {
      SumAtLeast(names[..|names| - 1], more, less);
    }
  }

  lemma {:induction false} SumOfSums(names: seq<string>, a: map<string, Count>, b: map<string, Count>, sum: map<string, Count>)
    requires Covers(a, names) && Covers(b, names) && Covers(sum, names)
    requires forall n | n in names :: sum[n] == a[n].Plus(b[n])
    ensures SumOver(names, sum) == SumOver(names, a).Plus(SumOver(names, b))
  {
    if names == [] {
      PlusNothing(NOTHING);
    } else {
      var before, last := names[..|names| - 1], names[|names| - 1];
      SumOfSums(before, a, b, sum);
      assert last in names;
      PlusPairs(SumOver(before, a), SumOver(before, b), a[last], b[last]);
    }
  }

  // --- what recording adds to the day rows ------------------------------------------------------------

  lemma IncreasedAdds(increases: map<nat, Count>, application: nat, added: Count)
    ensures Total(Increased(increases, application, added)) == Total(increases).Plus(added)
  {
    if added == NOTHING {
      PlusNothing(Total(increases));
    } else {
      TotalAdd(increases, application, added);
    }
  }

  lemma GrowOne(days: map<Slot, Count>, increases: map<nat, Count>, today: int, application: nat)
    requires application in increases
    ensures var slot, before := Slot(application, today), GrowDays(days, increases - {application}, today);
      GrowDays(days, increases, today) == before[slot := DayOf(before, slot).Plus(increases[application])]
  {
    var slot, rest := Slot(application, today), increases - {application};
    var before, after := GrowDays(days, rest, today), GrowDays(days, increases, today);
    GrownDay(days, rest, today, slot);
    forall other: Slot
      ensures other in after <==> other in before || other == slot
      ensures other in after && other != slot ==> after[other] == before[other]
    {
      InToday(increases.Keys, today, other);
      InToday(rest.Keys, today, other);
    }
  }

  /** Today's rows together grow by all increases together. */
  lemma {:induction false} GrowingAddsTheIncreases(days: map<Slot, Count>, increases: map<nat, Count>, today: int)
    ensures Total(GrowDays(days, increases, today)) == Total(days).Plus(Total(increases))
    decreases |increases|
  {
    if increases == map[] {
      assert GrowDays(days, increases, today) == days;
      PlusNothing(Total(days));
    } else {
      var application :| application in increases;
      var rest := increases - {application};
      var before, slot := GrowDays(days, rest, today), Slot(application, today);
      GrowingAddsTheIncreases(days, rest, today);
      GrowOne(days, increases, today, application);
      TotalAdd(before, slot, increases[application]);
      assert Total(GrowDays(days, increases, today)) == Total(before).Plus(increases[application]);
      TotalOne(increases, application);
      PlusAssociates(Total(days), Total(rest), increases[application]);
    }
  }

  /** After a recording the rows hold at most what they held before and the increases. */
  lemma RecordingAddsAtMost(days: map<Slot, Count>, increases: map<nat, Count>, today: int)
    ensures Total(days).Plus(Total(increases)).AtLeast(Total(Retained(GrowDays(days, increases, today), today)))
  {
    GrowingAddsTheIncreases(days, increases, today);
    TotalOfPart(Retained(GrowDays(days, increases, today), today), GrowDays(days, increases, today));
  }
}
