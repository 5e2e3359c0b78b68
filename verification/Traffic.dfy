/**
 * Traffic metering (`app/services/traffic.py`): the edge's running totals, which start again at zero
 * when Caddy restarts or gets a new configuration, turned into increases per application and day.
 */
module Traffic {
  import opened Domains
  import Texts

  const DAY: Time := 24 * HOUR
  const COUNTER_EXPIRY: Time := 30 * DAY
  const RETENTION_DAYS := 400

  datatype Count = Count(requests: nat, bytes: nat) {
    function Plus(other: Count): Count {
      Count(requests + other.requests, bytes + other.bytes)
    }

    predicate AtLeast(other: Count) {
      requests >= other.requests && bytes >= other.bytes
    }
  }

  const NOTHING: Count := Count(0, 0)

  datatype Counter = Counter(count: Count, readAt: Time)

  datatype Reading = Reading(host: string, count: Count)

  ghost predicate DistinctHosts(readings: seq<Reading>) {
    forall i, j | 0 <= i < j < |readings| :: readings[i].host != readings[j].host
  }

  // --- what the edge reports ------------------------------------------------------------------------

  // The label that hostnames the edge is not configured for share.
  const OTHER_HOST := "_other"

  // One reported total, as it was read.
  datatype Reported = Reported(host: string, requests: int, bytes: int)

  function AtLeastZero(n: int): nat {
    if n < 0 then 0 else n
  }

  function CountOf(r: Reported): Count {
    Count(AtLeastZero(r.requests), AtLeastZero(r.bytes))
  }

  /** The reading of a host is set, in the place it has or at the end. */
  function Put(readings: seq<Reading>, reading: Reading): seq<Reading> {
    if readings == [] then [reading]
    else if readings[0].host == reading.host then [reading] + readings[1..]
    else [readings[0]] + Put(readings[1..], reading)
  }

  /** Reported totals by lower-cased host, without the shared label; of two for one host the later counts. */
  function Normalized(reported: seq<Reported>): seq<Reading> {
    if reported == [] then []
    else
      var last := reported[|reported| - 1];
      var before := Normalized(reported[..|reported| - 1]);
      if last.host == OTHER_HOST then before else Put(before, Reading(Texts.Lower(last.host), CountOf(last)))
  }

  lemma {:induction false} PutKeeps(readings: seq<Reading>, reading: Reading)
    requires DistinctHosts(readings)
    ensures DistinctHosts(Put(readings, reading))
    ensures forall r :: r in Put(readings, reading) <==> r == reading || (r in readings && r.host != reading.host)
  {
    if readings != [] {
      var rest := readings[1..];
      assert readings == [readings[0]] + rest;
      if readings[0].host != reading.host {
        PutKeeps(rest, reading);
      }
    }
  }

  /** The reading is what the `k`th report says, the last one about its host in any case. */
  ghost predicate ReadFrom(reported: seq<Reported>, reading: Reading, k: nat) {
    && k < |reported| && reported[k].host != OTHER_HOST
    && Texts.Lower(reported[k].host) == reading.host && CountOf(reported[k]) == reading.count
    && forall j | k < j < |reported| :: reported[j].host == OTHER_HOST || Texts.Lower(reported[j].host) != reading.host
  }

  lemma ReadFromEarlier(reported: seq<Reported>, reading: Reading, k: nat)
    requires k < |reported| - 1
    ensures var last := reported[|reported| - 1];
      ReadFrom(reported, reading, k) <==>
        ReadFrom(reported[..|reported| - 1], reading, k) && (last.host == OTHER_HOST || Texts.Lower(last.host) != reading.host)
  {
  }

  /** Each host has one reading: the last one reported of it, not below zero. */
  lemma {:induction false} NormalizedAre(reported: seq<Reported>, reading: Reading)
    ensures DistinctHosts(Normalized(reported))
    ensures reading in Normalized(reported) <==> exists k :: ReadFrom(reported, reading, k)
  {
    if reported != [] {
      var n := |reported| - 1;
      var before, last := reported[..n], reported[n];
      NormalizedAre(before, reading);
      forall k: nat | k < n
        ensures ReadFrom(reported, reading, k)
           <==> ReadFrom(before, reading, k) && (last.host == OTHER_HOST || Texts.Lower(last.host) != reading.host)
      {
        ReadFromEarlier(reported, reading, k);
      }
      if last.host != OTHER_HOST {
        PutKeeps(Normalized(before), Reading(Texts.Lower(last.host), CountOf(last)));
      }
      if reading in Normalized(reported) && !ReadFrom(reported, reading, n) {
        var k :| ReadFrom(before, reading, k);
        assert ReadFrom(reported, reading, k);
      }
    }
  }

  /** A total that went down means the edge restarted since the previous reading: count from zero. */
  function Added(base: Count, reading: Count): Count {
    if !reading.AtLeast(base) then reading
    else Count(reading.requests - base.requests, reading.bytes - base.bytes)
  }

  // --- one reading, over all hosts ---------------------------------------------------------------

  function BaseOf(counters: map<string, Counter>, host: string): Count {
    if host in counters then counters[host].count else NOTHING
  }

  function ReadInto(counters: map<string, Counter>, readings: seq<Reading>, now: Time): map<string, Counter> {
    if readings == [] then counters
    else
      var last := readings[|readings| - 1];
      ReadInto(counters, readings[..|readings| - 1], now)[last.host := Counter(last.count, now)]
  }

  function Unexpired(counters: map<string, Counter>, now: Time): map<string, Counter> {
    map host | host in counters && counters[host].readAt >= now - COUNTER_EXPIRY :: counters[host]
  }

  /** A configuration change starts every total at zero again. */
  function Zeroed(counters: map<string, Counter>): map<string, Counter> {
    map host | host in counters :: Counter(NOTHING, counters[host].readAt)
  }

  function TotalOf(increases: map<nat, Count>, application: nat): Count {
    if application in increases then increases[application] else NOTHING
  }

  function Increased(increases: map<nat, Count>, application: nat, added: Count): map<nat, Count> {
    if added == NOTHING then increases else increases[application := TotalOf(increases, application).Plus(added)]
  }

  /** The increases per application, from the baselines as they were before the reading. */
  function Increases(counters: map<string, Counter>, owners: map<string, nat>, readings: seq<Reading>): map<nat, Count> {
    if readings == [] then map[]
    else
      var last := readings[|readings| - 1];
      var before := Increases(counters, owners, readings[..|readings| - 1]);
      if last.host in owners then Increased(before, owners[last.host], Added(BaseOf(counters, last.host), last.count))
      else before
  }

  // One application's row for one day.
  datatype Slot = Slot(application: nat, day: int)

  function DayOf(days: map<Slot, Count>, slot: Slot): Count {
    if slot in days then days[slot] else NOTHING
  }

  function Retained(days: map<Slot, Count>, today: int): map<Slot, Count> {
    map slot | slot in days && slot.day > today - RETENTION_DAYS :: days[slot]
  }

  /** A row once the increases of the given applications are added to today's. */
  function Grown(before: map<Slot, Count>, slot: Slot, increases: map<nat, Count>, today: int, done: set<nat>): Count {
    var was := DayOf(before, slot);
    if slot.day == today && slot.application in increases && slot.application in done
    then was.Plus(increases[slot.application]) else was
  }

  function Today(applications: set<nat>, today: int): set<Slot> {
    set application | application in applications :: Slot(application, today)
  }

  lemma InToday(applications: set<nat>, today: int, slot: Slot)
    ensures slot in Today(applications, today) <==> slot.day == today && slot.application in applications
  {
    assert slot == Slot(slot.application, slot.day);
  }

  /** Today's rows of the applications with an increase grow by it; no other row changes. */
  function GrowDays(before: map<Slot, Count>, increases: map<nat, Count>, today: int): map<Slot, Count> {
    map slot | slot in before.Keys + Today(increases.Keys, today) :: Grown(before, slot, increases, today, increases.Keys)
  }

  lemma SameDays(after: map<Slot, Count>, before: map<Slot, Count>, increases: map<nat, Count>, today: int)
    requires after.Keys == before.Keys + Today(increases.Keys, today)
    requires forall slot: Slot :: DayOf(after, slot) == Grown(before, slot, increases, today, increases.Keys)
    ensures after == GrowDays(before, increases, today)
  {
    var grown := GrowDays(before, increases, today);
    forall slot | slot in after
      ensures after[slot] == grown[slot]
    {
      assert DayOf(after, slot) == after[slot];
    }
  }

  class TrafficBooks {
    var counters: map<string, Counter>
    var days: map<Slot, Count>

    constructor ()
      ensures counters == map[] && days == map[]
    {
      counters, days := map[], map[];
    }

    method ReadTotals(readings: seq<Reading>, owners: map<string, nat>, now: Time) returns (increases: map<nat, Count>)
      requires DistinctHosts(readings)
      modifies `counters
      ensures counters == ReadInto(old(counters), readings, now)
      ensures increases == Increases(old(counters), owners, readings)
    {
      increases := map[];
      ghost var before := counters;
      for i := 0 to |readings|
        invariant counters == ReadInto(before, readings[..i], now)
        invariant increases == Increases(before, owners, readings[..i])
        invariant forall j | i <= j < |readings| :: BaseOf(counters, readings[j].host) == BaseOf(before, readings[j].host)
      {
        var host, count := readings[i].host, readings[i].count;
        assert readings[..i + 1][..i] == readings[..i];
        var base := BaseOf(counters, host);
        var added := if count.requests < base.requests || count.bytes < base.bytes then count
                     else Count(count.requests - base.requests, count.bytes - base.bytes);
        counters := counters[host := Counter(count, now)];
        if host in owners && added != NOTHING {
          increases := increases[owners[host] := TotalOf(increases, owners[host]).Plus(added)];
        }
      }
      assert readings[..|readings|] == readings;
    }

    method AddToDays(increases: map<nat, Count>, today: int)
      modifies `days
      ensures days == GrowDays(old(days), increases, today)
    {
      ghost var before := days;
      var left := increases.Keys;
      while left != {}
        invariant left <= increases.Keys
        invariant days.Keys == before.Keys + Today(increases.Keys - left, today)
        invariant forall slot: Slot :: DayOf(days, slot) == Grown(before, slot, increases, today, increases.Keys - left)
        decreases |left|
      {
        var application :| application in left;
        var mine := Slot(application, today);
        ghost var prior, done := days, increases.Keys - left;
        days := days[mine := DayOf(days, mine).Plus(increases[application])];
        left := left - {application};
        forall slot: Slot
          ensures DayOf(days, slot) == Grown(before, slot, increases, today, increases.Keys - left)
        {
          assert DayOf(prior, slot) == Grown(before, slot, increases, today, done);
          assert increases.Keys - left == done + {application};
          assert slot == mine <==> slot.day == today && slot.application == application;
        }
      }
      SameDays(days, before, increases, today);
    }

    method Normalize(reported: seq<Reported>) returns (readings: seq<Reading>)
      ensures readings == Normalized(reported)
    {
      readings := [];
      for i := 0 to |reported|
        invariant readings == Normalized(reported[..i])
      {
        assert reported[..i + 1][..i] == reported[..i];
        if reported[i].host != OTHER_HOST {
          readings := Put(readings, Reading(Texts.Lower(reported[i].host), CountOf(reported[i])));
        }
      }
      assert reported[..|reported|] == reported;
    }

    method RecordTotals(reported: seq<Reported>, owners: map<string, nat>, now: Time) returns (changed: nat)
      modifies this
      ensures var readings := Normalized(reported);
        var increases := Increases(old(counters), owners, readings);
        && counters == Unexpired(ReadInto(old(counters), readings, now), now)
        && days == Retained(GrowDays(old(days), increases, now / DAY), now / DAY)
        && changed == |increases|
    {
      var readings := Normalize(reported);
      NormalizedAre(reported, Reading("", NOTHING));
      var increases := ReadTotals(readings, owners, now);
      AddToDays(increases, now / DAY);
      counters := Unexpired(counters, now);
      days := Retained(days, now / DAY);
      changed := |increases|;
    }

    method ResetBaselines()
      modifies `counters
      ensures counters == Zeroed(old(counters))
    {
      counters := map host | host in counters :: Counter(NOTHING, counters[host].readAt);
    }
  }

  // --- what a reading does to each host and each application ---------------------------------------

  /** What the reading adds for the hosts an application owns. */
  function AddedFor(counters: map<string, Counter>, owners: map<string, nat>, readings: seq<Reading>, application: nat): Count {
    if readings == [] then NOTHING
    else
      var last := readings[|readings| - 1];
      var before := AddedFor(counters, owners, readings[..|readings| - 1], application);
      if last.host in owners && owners[last.host] == application
      then before.Plus(Added(BaseOf(counters, last.host), last.count))
      else before
  }

  lemma IncreasedTotal(increases: map<nat, Count>, application: nat, added: Count, other: nat)
    ensures TotalOf(Increased(increases, application, added), other)
         == if other == application then TotalOf(increases, other).Plus(added) else TotalOf(increases, other)
  {
    if added == NOTHING {
      PlusNothing(TotalOf(increases, other));
    }
  }

  lemma PlusNothing(c: Count)
    ensures c.Plus(NOTHING) == c
  {
  }

  /** Nothing is lost between hosts and applications: each application's increase is the sum over its own hosts. */
  lemma {:induction false} IncreasesAreTheOwnersSums(counters: map<string, Counter>, owners: map<string, nat>,
                                                     readings: seq<Reading>, application: nat)
    ensures TotalOf(Increases(counters, owners, readings), application) == AddedFor(counters, owners, readings, application)
    decreases |readings|
  {
    if readings != [] {
      var last, rest := readings[|readings| - 1], readings[..|readings| - 1];
      IncreasesAreTheOwnersSums(counters, owners, rest, application);
      if last.host in owners {
        IncreasedTotal(Increases(counters, owners, rest), owners[last.host], Added(BaseOf(counters, last.host), last.count),
                       application);
      }
    }
  }

  /** The day of an application grows by exactly that, and no other day still kept changes. */
  lemma DaysGrowByTheIncrease(days: map<Slot, Count>, counters: map<string, Counter>, owners: map<string, nat>,
                              readings: seq<Reading>, now: Time, slot: Slot)
    requires slot.day > now / DAY - RETENTION_DAYS
    ensures var after := Retained(GrowDays(days, Increases(counters, owners, readings), now / DAY), now / DAY);
      DayOf(after, slot) ==
        if slot.day == now / DAY then DayOf(days, slot).Plus(AddedFor(counters, owners, readings, slot.application))
        else DayOf(days, slot)
  {
    IncreasesAreTheOwnersSums(counters, owners, readings, slot.application);
    GrownDay(days, Increases(counters, owners, readings), now / DAY, slot);
    GrownIs(days, Increases(counters, owners, readings), now / DAY, slot);
  }

  lemma GrownDay(days: map<Slot, Count>, increases: map<nat, Count>, today: int, slot: Slot)
    ensures DayOf(GrowDays(days, increases, today), slot) == Grown(days, slot, increases, today, increases.Keys)
  {
    InToday(increases.Keys, today, slot);
  }

  lemma GrownIs(days: map<Slot, Count>, increases: map<nat, Count>, today: int, slot: Slot)
    ensures Grown(days, slot, increases, today, increases.Keys) ==
      if slot.day == today then DayOf(days, slot).Plus(TotalOf(increases, slot.application)) else DayOf(days, slot)
  {
    if slot.application in increases {
      assert TotalOf(increases, slot.application) == increases[slot.application];
    } else {
      assert TotalOf(increases, slot.application) == NOTHING;
      PlusNothing(DayOf(days, slot));
    }
  }

  /** The applications whose day changes are those with an increase. */
  lemma {:induction false} IncreasedApplications(counters: map<string, Counter>, owners: map<string, nat>,
                                                 readings: seq<Reading>, application: nat)
    ensures application in Increases(counters, owners, readings) <==>
      AddedFor(counters, owners, readings, application) != NOTHING
    decreases |readings|
  {
    if readings != [] {
      var rest := readings[..|readings| - 1];
      IncreasedApplications(counters, owners, rest, application);
      IncreasesAreTheOwnersSums(counters, owners, rest, application);
    }
  }

  /** Baselines not read for thirty days go, and day rows older than 400 days; no other. */
  lemma OldRowsGo(counters: map<string, Counter>, days: map<Slot, Count>, now: Time, host: string, slot: Slot)
    ensures host in Unexpired(counters, now) <==> host in counters && now - counters[host].readAt <= 30 * 24 * 60 * MINUTE
    ensures slot in Retained(days, now / DAY) <==> slot in days && now / DAY - slot.day < 400
    ensures host in Unexpired(counters, now) ==> Unexpired(counters, now)[host] == counters[host]
    ensures slot in Retained(days, now / DAY) ==> Retained(days, now / DAY)[slot] == days[slot]
  {
  }

  /** A host in the reading gets it as its baseline; any other keeps its own, or loses it once it has expired. */
  lemma {:induction false} BaselineAfter(counters: map<string, Counter>, readings: seq<Reading>, now: Time, host: string)
    requires DistinctHosts(readings)
    ensures var after := ReadInto(counters, readings, now);
      && (forall i | 0 <= i < |readings| && readings[i].host == host :: host in after && after[host] == Counter(readings[i].count, now))
      && ((forall i | 0 <= i < |readings| :: readings[i].host != host) ==>
            (host in after <==> host in counters) && (host in after ==> after[host] == counters[host]))
  {
    if readings != [] {
      BaselineAfter(counters, readings[..|readings| - 1], now, host);
    }
  }
}
