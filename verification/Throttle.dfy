/** The two request limiters of the v1 API (`app/v1/throttle.py`). */
module Throttle {
  const WINDOW: real := 60.0
  // A /48 prefix may fail this many times more than one /64.
  const PREFIX48_FACTOR := 10

  datatype Address = Text(text: string) | V4(value: nat) | V6(value: nat)

  datatype Key = TextKey(text: string) | V4Key(value: nat) | Prefix64(prefix: nat) | Prefix48(prefix: nat)

  /** The buckets a client counts against; an IPv6 client has two. */
  function Buckets(address: Address): (keys: seq<Key>)
    ensures forall i, j | 0 <= i < j < |keys| :: keys[i] != keys[j]
  {
    match address
    case Text(text) => [TextKey(text)]
    case V4(value) => [V4Key(value)]
    case V6(value) => [Prefix64(value / 0x1_0000_0000_0000_0000), Prefix48(value / 0x1_0000_0000_0000_0000_0000)]
  }

  function Limit(maxFailures: nat, key: Key): nat {
    if key.Prefix48? then maxFailures * PREFIX48_FACTOR else maxFailures
  }

  // --- lists of times ------------------------------------------------------------------------------

  /** The times within the window before `now`. */
  function Live(stamps: seq<real>, now: real): (live: seq<real>)
    ensures |live| <= |stamps|
  {
    if stamps == [] then []
    else if now - stamps[0] < WINDOW then [stamps[0]] + Live(stamps[1..], now)
    else Live(stamps[1..], now)
  }

  function Last(stamps: seq<real>, n: nat): seq<real> {
    if |stamps| <= n then stamps else stamps[|stamps| - n..]
  }

  function Wait(stamps: seq<real>, now: real): int
    requires stamps != []
  {
    (stamps[0] + WINDOW - now).Floor + 1
  }

  predicate InOrder(stamps: seq<real>) {
    forall i, j | 0 <= i < j < |stamps| :: stamps[i] <= stamps[j]
  }

  predicate Before(stamps: seq<real>, clock: real) {
    InOrder(stamps) && forall t | t in stamps :: t <= clock
  }

  predicate Suffix(s: seq<real>, whole: seq<real>) {
    |s| <= |whole| && s == whole[|whole| - |s|..]
  }

  lemma {:induction false} AllLive(stamps: seq<real>, now: real)
    requires forall i | 0 <= i < |stamps| :: now - stamps[i] < WINDOW
    ensures Live(stamps, now) == stamps
  {
    if stamps != [] {
      AllLive(stamps[1..], now);
      assert stamps == [stamps[0]] + stamps[1..];
    }
  }

  /** The live times of an ordered list are its end. */
  lemma {:induction false} LiveIsTheEnd(stamps: seq<real>, now: real)
    requires InOrder(stamps)
    ensures var live := Live(stamps, now);
      && Suffix(live, stamps)
      && (forall i | 0 <= i < |stamps| - |live| :: now - stamps[i] >= WINDOW)
      && (forall i | |stamps| - |live| <= i < |stamps| :: now - stamps[i] < WINDOW)
  {
    if stamps != [] {
      if now - stamps[0] < WINDOW {
        AllLive(stamps, now);
      } else {
        LiveIsTheEnd(stamps[1..], now);
        assert forall i | 1 <= i < |stamps| :: stamps[i] == stamps[1..][i - 1];
      }
    }
  }

  // --- failed authentications ------------------------------------------------------------------------

  datatype Entry = Entry(key: Key, stamps: seq<real>)

  function StampsOf(entries: seq<Entry>, key: Key): seq<real> {
    if entries == [] then [] else if entries[0].key == key then entries[0].stamps else StampsOf(entries[1..], key)
  }

  function Without(entries: seq<Entry>, key: Key): seq<Entry> {
    if entries == [] then []
    else if entries[0].key == key then Without(entries[1..], key)
    else [entries[0]] + Without(entries[1..], key)
  }

  function Evicted(entries: seq<Entry>, maxTracked: nat): seq<Entry> {
    if |entries| <= maxTracked then entries else entries[|entries| - maxTracked..]
  }

  /** A bucket that fails moves to the end; its list keeps only what can still matter. */
  function Moved(entries: seq<Entry>, key: Key, limit: nat, now: real): seq<Entry> {
    Without(entries, key) + [Entry(key, Last(Live(StampsOf(entries, key), now) + [now], limit))]
  }

  function RecordKeys(entries: seq<Entry>, keys: seq<Key>, maxFailures: nat, maxTracked: nat, now: real): seq<Entry>
    decreases |keys|
  {
    if keys == [] then entries
    else
      var moved := Moved(entries, keys[0], Limit(maxFailures, keys[0]), now);
      RecordKeys(Evicted(moved, maxTracked), keys[1..], maxFailures, maxTracked, now)
  }

  predicate Blocks(stamps: seq<real>, limit: nat, now: real) {
    |Live(stamps, now)| >= limit
  }

  function WaitFor(entries: seq<Entry>, key: Key, maxFailures: nat, now: real): int
    requires maxFailures > 0
  {
    var live := Live(StampsOf(entries, key), now);
    if |live| >= Limit(maxFailures, key) then Wait(live, now) else 0
  }

  function Longest(a: int, b: int): int {
    if a < b then b else a
  }

  function WaitForAll(entries: seq<Entry>, keys: seq<Key>, maxFailures: nat, now: real): int
    requires maxFailures > 0
  {
    if keys == [] then 0
    else Longest(WaitForAll(entries, keys[..|keys| - 1], maxFailures, now), WaitFor(entries, keys[|keys| - 1], maxFailures, now))
  }

  class FailedAuthLimiter {
    const maxFailures: nat
    const maxTracked: nat
    var failures: seq<Entry>

    constructor (maxFailures: nat, maxTracked: nat)
      ensures this.maxFailures == maxFailures && this.maxTracked == maxTracked && failures == []
    {
      this.maxFailures, this.maxTracked, failures := maxFailures, maxTracked, [];
    }

    method RetryAfter(address: Address, now: real) returns (wait: int)
      ensures wait == if maxFailures == 0 then 0 else WaitForAll(failures, Buckets(address), maxFailures, now)
    {
      wait := 0;
      if maxFailures == 0 {
        return;
      }
      var keys := Buckets(address);
      for i := 0 to |keys|
        invariant wait == WaitForAll(failures, keys[..i], maxFailures, now)
      {
        assert keys[..i + 1][..i] == keys[..i];
        var stamps := Live(StampsOf(failures, keys[i]), now);
        if |stamps| >= Limit(maxFailures, keys[i]) {
          wait := Longest(wait, Wait(stamps, now));
        } else {
          wait := Longest(wait, 0);
        }
      }
      assert keys[..|keys|] == keys;
    }

    /** The buckets that failed least recently go until there is room for the rest. */
    method Evict()
      modifies `failures
      ensures failures == Evicted(old(failures), maxTracked)
    {
      ghost var all := failures;
      while |failures| > maxTracked
        invariant |failures| <= |all| && failures == all[|all| - |failures|..]
        invariant |all| > maxTracked ==> |failures| >= maxTracked
        invariant |all| <= maxTracked ==> failures == all
      {
        failures := failures[1..];
      }
    }

    method RecordFailure(address: Address, now: real)
      modifies `failures
      ensures failures == if maxFailures == 0 then old(failures)
                          else RecordKeys(old(failures), Buckets(address), maxFailures, maxTracked, now)
    {
      if maxFailures == 0 {
        return;
      }
      var keys := Buckets(address);
      ghost var before := failures;
      for i := 0 to |keys|
        invariant RecordKeys(failures, keys[i..], maxFailures, maxTracked, now)
               == RecordKeys(before, keys, maxFailures, maxTracked, now)
      {
        assert keys[i..][0] == keys[i] && keys[i..][1..] == keys[i + 1..];
        var stamps := Live(StampsOf(failures, keys[i]), now) + [now];
        failures := Without(failures, keys[i]) + [Entry(keys[i], Last(stamps, Limit(maxFailures, keys[i])))];
        Evict();
      }
    }
  }

  // --- against the limiter that keeps every failure ----------------------------------------------------

  datatype Failure = Failure(address: Address, at: real)

  function RecordAll(failures: seq<Failure>, maxFailures: nat, maxTracked: nat): seq<Entry> {
    if failures == [] then []
    else
      var last := failures[|failures| - 1];
      RecordKeys(RecordAll(failures[..|failures| - 1], maxFailures, maxTracked), Buckets(last.address), maxFailures,
                 maxTracked, last.at)
  }

  /** Every failure that counts against a bucket, in order. */
  function AllOf(failures: seq<Failure>, key: Key): seq<real> {
    if failures == [] then []
    else
      var last := failures[|failures| - 1];
      AllOf(failures[..|failures| - 1], key) + if key in Buckets(last.address) then [last.at] else []
  }

  predicate Monotone(failures: seq<Failure>) {
    forall i, j | 0 <= i < j < |failures| :: failures[i].at <= failures[j].at
  }

  lemma OrderedEnd(all: seq<real>, from: nat)
    requires InOrder(all) && from <= |all|
    ensures InOrder(all[from..])
  {
  }

  lemma {:induction false} LiveOfTheEnd(all: seq<real>, from: nat, now: real)
    requires InOrder(all) && from <= |all|
    ensures var first := |all| - |Live(all, now)|;
      Live(all[from..], now) == all[if from < first then first else from..]
  {
    LiveIsTheEnd(all, now);
    if from == 0 {
      assert all[0..] == all;
    } else {
      var rest := all[1..];
      OrderedEnd(all, 1);
      LiveOfTheEnd(rest, from - 1, now);
      LiveIsTheEnd(rest, now);
      assert rest[from - 1..] == all[from..];
      var first := |all| - |Live(all, now)|;
      var start := if from < first then first else from;
      assert rest[start - 1..] == all[start..];
    }
  }

  /** What is kept of a bucket: the end of its failures, and, if nothing was evicted, all of them that can matter. */
  ghost predicate Keeps(kept: seq<real>, all: seq<real>, limit: nat, clock: real, complete: bool) {
    && Before(all, clock) && Suffix(kept, all) && |kept| <= limit
    && (complete ==> |kept| == limit || |Live(all, clock)| <= |kept|)
  }

  /** Fewer failures are live later. */
  lemma {:induction false} LiveShrinks(all: seq<real>, clock: real, now: real)
    requires clock <= now
    ensures |Live(all, now)| <= |Live(all, clock)|
  {
    if all != [] {
      LiveShrinks(all[1..], clock, now);
    }
  }

  /** From what is kept the same decision follows as from everything; after an eviction only a milder one. */
  lemma KeptDecides(kept: seq<real>, all: seq<real>, limit: nat, clock: real, complete: bool, now: real)
    requires Keeps(kept, all, limit, clock, complete) && clock <= now
    ensures Blocks(kept, limit, now) ==> Blocks(all, limit, now)
    ensures complete ==> (Blocks(kept, limit, now) <==> Blocks(all, limit, now))
  {
    LiveOfTheEnd(all, |all| - |kept|, now);
    LiveShrinks(all, clock, now);
  }

  lemma {:induction false} LiveAppend(stamps: seq<real>, now: real)
    ensures Live(stamps + [now], now) == Live(stamps, now) + [now]
  {
    if stamps == [] {
      assert [] + [now] == [now];
    } else {
      LiveAppend(stamps[1..], now);
      assert (stamps + [now])[1..] == stamps[1..] + [now];
    }
  }

  lemma BeforeAppend(all: seq<real>, clock: real, now: real)
    requires Before(all, clock) && clock <= now
    ensures Before(all + [now], now)
  {
    assert forall i | 0 <= i < |all| :: all[i] in all;
  }

  lemma LastOfEnd(all: seq<real>, start: nat, limit: nat, now: real)
    requires start <= |all|
    ensures Suffix(Last(all[start..] + [now], limit), all + [now])
  {
  }

  /** The lengths: what is kept is full, or has every live failure. */
  lemma EnoughKept(kept: seq<real>, all: seq<real>, limit: nat, clock: real, complete: bool, now: real, first: nat, start: nat)
    requires Keeps(kept, all, limit, clock, complete) && limit > 0 && |Live(all, now)| <= |Live(all, clock)|
    requires first == |all| - |Live(all, now)| && start == if |all| - |kept| < first then first else |all| - |kept|
    ensures var n := if |all| - start + 1 <= limit then |all| - start + 1 else limit;
      complete ==> n == limit || |Live(all, now)| + 1 <= n
  {
  }

  lemma LastLength(stamps: seq<real>, limit: nat)
    ensures |Last(stamps, limit)| == if |stamps| <= limit then |stamps| else limit
  {
  }

  /** The end of a list with one more failure, if it is long enough, stands for the whole list. */
  lemma EndKeeps(all: seq<real>, start: nat, limit: nat, clock: real, complete: bool, now: real)
    requires start <= |all| && Before(all, clock) && clock <= now
    requires var n := if |all| - start + 1 <= limit then |all| - start + 1 else limit;
      complete ==> n == limit || |Live(all, now)| + 1 <= n
    ensures Keeps(Last(all[start..] + [now], limit), all + [now], limit, now, complete)
  {
    BeforeAppend(all, clock, now);
    LastOfEnd(all, start, limit, now);
    LastLength(all[start..] + [now], limit);
    LiveAppend(all, now);
  }

  lemma KeepsFrom(kept: seq<real>, all: seq<real>, limit: nat, clock: real, complete: bool, now: real, start: nat)
    requires Keeps(kept, all, limit, clock, complete) && clock <= now && limit > 0
    requires var from, first := |all| - |kept|, |all| - |Live(all, now)|;
      start == if from < first then first else from
    ensures Keeps(Last(all[start..] + [now], limit), all + [now], limit, now, complete)
  {
    LiveShrinks(all, clock, now);
    EnoughKept(kept, all, limit, clock, complete, now, |all| - |Live(all, now)|, start);
    EndKeeps(all, start, limit, clock, complete, now);
  }

  /** A further failure of the bucket keeps the relation. */
  lemma KeepsOn(kept: seq<real>, all: seq<real>, limit: nat, clock: real, complete: bool, now: real)
    requires Keeps(kept, all, limit, clock, complete) && clock <= now && limit > 0
    ensures Keeps(Last(Live(kept, now) + [now], limit), all + [now], limit, now, complete)
  {
    var from, first := |all| - |kept|, |all| - |Live(all, now)|;
    var start := if from < first then first else from;
    LiveOfTheEnd(all, from, now);
    KeepsFrom(kept, all, limit, clock, complete, now, start);
    assert Live(kept, now) == all[start..];
  }

  lemma KeepsLater(kept: seq<real>, all: seq<real>, limit: nat, clock: real, complete: bool, now: real)
    requires Keeps(kept, all, limit, clock, complete) && clock <= now
    ensures Keeps(kept, all, limit, now, complete)
    ensures Keeps([], all, limit, now, false)
  {
    LiveShrinks(all, clock, now);
  }

  // --- the map of buckets --------------------------------------------------------------------------------

  ghost predicate DistinctKeys(entries: seq<Entry>) {
    forall i, j | 0 <= i < j < |entries| :: entries[i].key != entries[j].key
  }

  function LastFailure(entry: Entry): real {
    if entry.stamps == [] then 0.0 else entry.stamps[|entry.stamps| - 1]
  }

  /** At most `maxTracked` buckets, each once, the one that failed least recently first. */
  ghost predicate Tidy(entries: seq<Entry>, clock: real) {
    && DistinctKeys(entries)
    && (forall i | 0 <= i < |entries| :: LastFailure(entries[i]) <= clock)
    && (forall i, j | 0 <= i < j < |entries| :: LastFailure(entries[i]) <= LastFailure(entries[j]))
  }

  lemma {:induction false} WithoutKeeps(entries: seq<Entry>, key: Key, clock: real)
    requires Tidy(entries, clock)
    ensures Tidy(Without(entries, key), clock)
    ensures forall e | e in Without(entries, key) :: e.key != key && e in entries
    ensures |Without(entries, key)| <= |entries|
  {
    if entries != [] {
      WithoutKeeps(entries[1..], key, clock);
      var rest := Without(entries[1..], key);
      if entries[0].key != key {
        var all := Without(entries, key);
        assert all == [entries[0]] + rest;
        forall j | 0 < j < |all|
          ensures all[j].key != all[0].key && LastFailure(all[0]) <= LastFailure(all[j])
        {
          assert all[j] in entries[1..];
        }
      }
    }
  }

  lemma {:induction false} StampsWithout(entries: seq<Entry>, key: Key, other: Key)
    ensures StampsOf(Without(entries, key), other) == if other == key then [] else StampsOf(entries, other)
  {
    if entries != [] {
      StampsWithout(entries[1..], key, other);
      if entries[0].key != key {
        assert Without(entries, key)[1..] == Without(entries[1..], key);
      }
    }
  }

  lemma {:induction false} StampsAppend(entries: seq<Entry>, entry: Entry, other: Key)
    requires forall e | e in entries :: e.key != entry.key
    ensures StampsOf(entries + [entry], other) == if other == entry.key then entry.stamps else StampsOf(entries, other)
  {
    if entries != [] {
      StampsAppend(entries[1..], entry, other);
      assert (entries + [entry])[1..] == entries[1..] + [entry];
    }
  }

  lemma {:induction false} StampsDropped(entries: seq<Entry>, from: nat, key: Key)
    requires DistinctKeys(entries) && from <= |entries|
    ensures StampsOf(entries[from..], key) == StampsOf(entries, key) || StampsOf(entries[from..], key) == []
  {
    if from == 0 {
      assert entries[0..] == entries;
    } else {
      StampsDropped(entries[1..], from - 1, key);
      assert entries[1..][from - 1..] == entries[from..];
      if entries[0].key == key {
        Absent(entries[from..], key);
      }
    }
  }

  lemma {:induction false} Absent(entries: seq<Entry>, key: Key)
    requires forall i | 0 <= i < |entries| :: entries[i].key != key
    ensures StampsOf(entries, key) == []
  {
    if entries != [] {
      Absent(entries[1..], key);
    }
  }

  lemma TidyAppend(entries: seq<Entry>, entry: Entry, clock: real, now: real)
    requires Tidy(entries, clock) && clock <= now && LastFailure(entry) == now
    requires forall e | e in entries :: e.key != entry.key
    ensures Tidy(entries + [entry], now)
  {
    forall i | 0 <= i < |entries|
      ensures entries[i].key != entry.key
    {
      assert entries[i] in entries;
    }
  }

  lemma LastIsNow(stamps: seq<real>, key: Key, limit: nat, now: real)
    requires limit > 0
    ensures LastFailure(Entry(key, Last(stamps + [now], limit))) == now
  {
  }

  lemma MovedIs(entries: seq<Entry>, key: Key, limit: nat, clock: real, now: real, other: Key)
    requires Tidy(entries, clock) && clock <= now && limit > 0
    ensures Tidy(Moved(entries, key, limit, now), now)
    ensures StampsOf(Moved(entries, key, limit, now), other) ==
      if other == key then Last(Live(StampsOf(entries, key), now) + [now], limit) else StampsOf(entries, other)
  {
    var live := Live(StampsOf(entries, key), now);
    var entry, rest := Entry(key, Last(live + [now], limit)), Without(entries, key);
    WithoutKeeps(entries, key, clock);
    LastIsNow(live, key, limit, now);
    TidyAppend(rest, entry, clock, now);
    StampsWithout(entries, key, other);
    StampsAppend(rest, entry, other);
  }

  lemma EvictedTidy(entries: seq<Entry>, maxTracked: nat, clock: real)
    requires Tidy(entries, clock)
    ensures Tidy(Evicted(entries, maxTracked), clock) && |Evicted(entries, maxTracked)| <= maxTracked
  {
  }

  lemma EvictedStamps(entries: seq<Entry>, maxTracked: nat, key: Key)
    requires DistinctKeys(entries)
    ensures StampsOf(Evicted(entries, maxTracked), key) == StampsOf(entries, key) || StampsOf(Evicted(entries, maxTracked), key) == []
  {
    if |entries| > maxTracked {
      StampsDropped(entries, |entries| - maxTracked, key);
    }
  }

  // --- over any run ----------------------------------------------------------------------------------------

  /** No bucket has to be evicted while these keys are recorded. */
  predicate Fits(entries: seq<Entry>, keys: seq<Key>, maxFailures: nat, maxTracked: nat, now: real)
    decreases |keys|
  {
    keys == [] ||
    var moved := Moved(entries, keys[0], Limit(maxFailures, keys[0]), now);
    |moved| <= maxTracked && Fits(moved, keys[1..], maxFailures, maxTracked, now)
  }

  predicate NeverEvicts(failures: seq<Failure>, maxFailures: nat, maxTracked: nat) {
    failures == [] ||
    var before := failures[..|failures| - 1];
    var last := failures[|failures| - 1];
    && NeverEvicts(before, maxFailures, maxTracked)
    && Fits(RecordAll(before, maxFailures, maxTracked), Buckets(last.address), maxFailures, maxTracked, last.at)
  }

  lemma OneKeyKeeps(entries: seq<Entry>, recorded: Key, maxFailures: nat, maxTracked: nat, clock: real, now: real,
                    key: Key, all: seq<real>, complete: bool)
    requires Tidy(entries, clock) && clock <= now && maxFailures > 0
    requires Keeps(StampsOf(entries, key), all, Limit(maxFailures, key), clock, complete)
    requires complete ==> |Moved(entries, recorded, Limit(maxFailures, recorded), now)| <= maxTracked
    ensures var after := Evicted(Moved(entries, recorded, Limit(maxFailures, recorded), now), maxTracked);
      && Tidy(after, now) && |after| <= maxTracked
      && Keeps(StampsOf(after, key), if key == recorded then all + [now] else all, Limit(maxFailures, key), now, complete)
  {
    var kept, limit := StampsOf(entries, key), Limit(maxFailures, key);
    var moved := Moved(entries, recorded, Limit(maxFailures, recorded), now);
    MovedIs(entries, recorded, Limit(maxFailures, recorded), clock, now, key);
    EvictedTidy(moved, maxTracked, now);
    EvictedStamps(moved, maxTracked, key);
    if key == recorded {
      KeepsOn(kept, all, limit, clock, complete, now);
      KeepsLater(StampsOf(moved, key), all + [now], limit, now, complete, now);
    } else {
      KeepsLater(kept, all, limit, clock, complete, now);
    }
  }

  lemma TidyLater(entries: seq<Entry>, clock: real, now: real)
    requires Tidy(entries, clock) && clock <= now
    ensures Tidy(entries, now)
  {
    assert forall i, j | 0 <= i < j < |entries| :: LastFailure(entries[i]) <= LastFailure(entries[j]);
  }

  lemma FirstOrLater(keys: seq<Key>, key: Key)
    requires keys != [] && forall i, j | 0 <= i < j < |keys| :: keys[i] != keys[j]
    ensures key in keys <==> key == keys[0] || key in keys[1..]
    ensures key == keys[0] ==> key !in keys[1..]
  {
  }

  lemma {:induction false} RecordKeysKeeps(entries: seq<Entry>, keys: seq<Key>, maxFailures: nat, maxTracked: nat, clock: real,
                                           now: real, key: Key, all: seq<real>, complete: bool)
    requires Tidy(entries, clock) && clock <= now && maxFailures > 0 && |entries| <= maxTracked
    requires forall i, j | 0 <= i < j < |keys| :: keys[i] != keys[j]
    requires Keeps(StampsOf(entries, key), all, Limit(maxFailures, key), clock, complete)
    requires complete ==> Fits(entries, keys, maxFailures, maxTracked, now)
    ensures var after := RecordKeys(entries, keys, maxFailures, maxTracked, now);
      && Tidy(after, now) && |after| <= maxTracked
      && Keeps(StampsOf(after, key), if key in keys then all + [now] else all, Limit(maxFailures, key), now, complete)
    decreases |keys|
  {
    if keys == [] {
      KeepsLater(StampsOf(entries, key), all, Limit(maxFailures, key), clock, complete, now);
      TidyLater(entries, clock, now);
    } else {
      FirstOrLater(keys, key);
      OneKeyKeeps(entries, keys[0], maxFailures, maxTracked, clock, now, key, all, complete);
      var next := Evicted(Moved(entries, keys[0], Limit(maxFailures, keys[0]), now), maxTracked);
      var grown := if key == keys[0] then all + [now] else all;
      RecordKeysKeeps(next, keys[1..], maxFailures, maxTracked, now, now, key, grown, complete);
    }
  }

  ghost predicate Until(failures: seq<Failure>, clock: real) {
    Monotone(failures) && forall i | 0 <= i < |failures| :: failures[i].at <= clock
  }

  lemma {:induction false} RunKeeps(failures: seq<Failure>, maxFailures: nat, maxTracked: nat, clock: real, key: Key)
    requires Until(failures, clock) && maxFailures > 0
    ensures var entries := RecordAll(failures, maxFailures, maxTracked);
      && Tidy(entries, clock) && |entries| <= maxTracked
      && Keeps(StampsOf(entries, key), AllOf(failures, key), Limit(maxFailures, key), clock,
               NeverEvicts(failures, maxFailures, maxTracked))
  {
    if failures != [] {
      var before, last := failures[..|failures| - 1], failures[|failures| - 1];
      var complete := NeverEvicts(failures, maxFailures, maxTracked);
      RunKeeps(before, maxFailures, maxTracked, last.at, key);
      var entries := RecordAll(before, maxFailures, maxTracked);
      RecordKeysKeeps(entries, Buckets(last.address), maxFailures, maxTracked, last.at, last.at, key, AllOf(before, key), complete);
      assert AllOf(before, key) + [] == AllOf(before, key);
      KeepsLater(StampsOf(RecordAll(failures, maxFailures, maxTracked), key), AllOf(failures, key), Limit(maxFailures, key),
                 last.at, complete, clock);
    }
  }

  /** The map stays within its bound, with each bucket once and the one that failed least recently first. */
  lemma MapStaysBounded(failures: seq<Failure>, maxFailures: nat, maxTracked: nat, clock: real)
    requires Until(failures, clock) && maxFailures > 0
    ensures var entries := RecordAll(failures, maxFailures, maxTracked);
      Tidy(entries, clock) && |entries| <= maxTracked
  {
    RunKeeps(failures, maxFailures, maxTracked, clock, TextKey(""));
  }

  // --- decisions -------------------------------------------------------------------------------------------

  lemma {:induction false} FirstLive(stamps: seq<real>, now: real)
    ensures Live(stamps, now) != [] ==> now - Live(stamps, now)[0] < WINDOW
  {
    if stamps != [] {
      FirstLive(stamps[1..], now);
    }
  }

  /** A client waits exactly when one of its buckets is over its limit. */
  lemma {:induction false} WaitsWhenBlocked(entries: seq<Entry>, keys: seq<Key>, maxFailures: nat, now: real)
    requires maxFailures > 0
    ensures var wait := WaitForAll(entries, keys, maxFailures, now);
      && (wait > 0 <==> exists k | k in keys :: Blocks(StampsOf(entries, k), Limit(maxFailures, k), now))
      && wait >= 0 && forall k | k in keys :: WaitFor(entries, k, maxFailures, now) <= wait
  {
    if keys != [] {
      var before, last := keys[..|keys| - 1], keys[|keys| - 1];
      assert keys == before + [last];
      WaitsWhenBlocked(entries, before, maxFailures, now);
      FirstLive(StampsOf(entries, last), now);
    }
  }

  ghost predicate FullyBlocked(failures: seq<Failure>, address: Address, maxFailures: nat, now: real) {
    exists k | k in Buckets(address) :: Blocks(AllOf(failures, k), Limit(maxFailures, k), now)
  }

  /**
   * With a clock that does not go back and without evictions the decisions are those of the limiter that
   * keeps every failure; evictions can only let more through.
   */
  lemma DecidesLikeTheFullLimiter(failures: seq<Failure>, maxFailures: nat, maxTracked: nat, address: Address, now: real)
    requires Until(failures, now) && maxFailures > 0
    ensures var wait := WaitForAll(RecordAll(failures, maxFailures, maxTracked), Buckets(address), maxFailures, now);
      && (wait > 0 ==> FullyBlocked(failures, address, maxFailures, now))
      && (NeverEvicts(failures, maxFailures, maxTracked) ==>
            (wait > 0 <==> FullyBlocked(failures, address, maxFailures, now)))
  {
    var entries := RecordAll(failures, maxFailures, maxTracked);
    WaitsWhenBlocked(entries, Buckets(address), maxFailures, now);
    forall k | k in Buckets(address)
      ensures Blocks(StampsOf(entries, k), Limit(maxFailures, k), now) ==> Blocks(AllOf(failures, k), Limit(maxFailures, k), now)
      ensures NeverEvicts(failures, maxFailures, maxTracked) ==>
        (Blocks(StampsOf(entries, k), Limit(maxFailures, k), now) <==> Blocks(AllOf(failures, k), Limit(maxFailures, k), now))
    {
      RunKeeps(failures, maxFailures, maxTracked, now, k);
      KeptDecides(StampsOf(entries, k), AllOf(failures, k), Limit(maxFailures, k), now,
                  NeverEvicts(failures, maxFailures, maxTracked), now);
    }
  }

  /** Once the oldest of a full list has aged out, the bucket is open. */
  lemma OneWaitSuffices(kept: seq<real>, limit: nat, now: real, later: real)
    requires |kept| <= limit && limit > 0 && now <= later
    requires |Live(kept, now)| >= limit ==> later >= now + Wait(Live(kept, now), now) as real
    ensures |Live(kept, later)| < limit
  {
    LiveShrinks(kept, now, later);
    if |Live(kept, now)| >= limit {
      assert Live(kept, now)[0] == kept[0];
    }
  }

  /** Waiting as long as the limiter says, with no further failure, always unblocks. */
  lemma WaitingSuffices(failures: seq<Failure>, maxFailures: nat, maxTracked: nat, address: Address, now: real, later: real)
    requires Until(failures, now) && maxFailures > 0
    requires var wait := WaitForAll(RecordAll(failures, maxFailures, maxTracked), Buckets(address), maxFailures, now);
      later >= now + wait as real
    ensures WaitForAll(RecordAll(failures, maxFailures, maxTracked), Buckets(address), maxFailures, later) == 0
  {
    var entries := RecordAll(failures, maxFailures, maxTracked);
    WaitsWhenBlocked(entries, Buckets(address), maxFailures, now);
    WaitsWhenBlocked(entries, Buckets(address), maxFailures, later);
    forall k | k in Buckets(address)
      ensures !Blocks(StampsOf(entries, k), Limit(maxFailures, k), later)
    {
      RunKeeps(failures, maxFailures, maxTracked, now, k);
      assert WaitFor(entries, k, maxFailures, now) <= WaitForAll(entries, Buckets(address), maxFailures, now);
      OneWaitSuffices(StampsOf(entries, k), Limit(maxFailures, k), now, later);
    }
  }

  /** Counted over all failures the same formula is too short: it waits for the oldest only, and the next still blocks. */
  lemma UntruncatedWaitCounterexample(client: nat)
    ensures var failures := [Failure(V4(client), 0.0), Failure(V4(client), 10.0)];
      var all := AllOf(failures, V4Key(client));
      && Until(failures, 20.0)
      && Live(all, 20.0) == all && Blocks(all, Limit(1, V4Key(client)), 20.0)
      && all != [] && Blocks(all, Limit(1, V4Key(client)), 20.0 + Wait(all, 20.0) as real)
  {
    var failures := [Failure(V4(client), 0.0), Failure(V4(client), 10.0)];
    var first := failures[..1];
    assert first[..0] == [] && first[0].at == 0.0;
    assert AllOf(first, V4Key(client)) == [] + [0.0];
    assert AllOf(failures, V4Key(client)) == [0.0] + [10.0];
    assert [0.0, 10.0][1..] == [10.0];
    assert Live([10.0], 20.0) == [10.0];
    assert Wait([0.0, 10.0], 20.0) == 41;
    assert Live([10.0], 61.0) == [10.0];
  }

  // --- requests per credential -----------------------------------------------------------------------------

  // A request with a credential at a time.
  datatype Call = Call(credential: string, at: real)

  function SeenOf(seen: map<string, seq<real>>, credential: string): seq<real> {
    if credential in seen then seen[credential] else []
  }

  /** Zero when the request may go ahead, else the seconds to wait. */
  function TakeWait(stamps: seq<real>, perMinute: nat, now: real): int
    requires perMinute > 0
  {
    var live := Live(stamps, now);
    if |live| >= perMinute then Wait(live, now) else 0
  }

  function Taken(stamps: seq<real>, perMinute: nat, now: real): seq<real> {
    var live := Live(stamps, now);
    if |live| >= perMinute then live else live + [now]
  }

  class CredentialRateLimiter {
    const perMinute: nat
    var seen: map<string, seq<real>>

    constructor (perMinute: nat)
      ensures this.perMinute == perMinute && seen == map[]
    {
      this.perMinute, seen := perMinute, map[];
    }

    method Take(credential: string, now: real) returns (wait: int)
      modifies `seen
      ensures perMinute == 0 ==> wait == 0 && seen == old(seen)
      ensures perMinute > 0 ==>
        && wait == TakeWait(SeenOf(old(seen), credential), perMinute, now)
        && seen == old(seen)[credential := Taken(SeenOf(old(seen), credential), perMinute, now)]
    {
      if perMinute == 0 {
        return 0;
      }
      var stamps := Live(SeenOf(seen, credential), now);
      if |stamps| >= perMinute {
        seen := seen[credential := stamps];
        return Wait(stamps, now);
      }
      seen := seen[credential := stamps + [now]];
      wait := 0;
    }
  }

  function StoredAfter(calls: seq<Call>, perMinute: nat, credential: string): seq<real> {
    if calls == [] then []
    else
      var stored := StoredAfter(calls[..|calls| - 1], perMinute, credential);
      var last := calls[|calls| - 1];
      if last.credential == credential then Taken(stored, perMinute, last.at) else stored
  }

  /** The times at which requests with the credential went ahead. */
  function Accepted(calls: seq<Call>, perMinute: nat, credential: string): seq<real>
    requires perMinute > 0
  {
    if calls == [] then []
    else
      var before, last := calls[..|calls| - 1], calls[|calls| - 1];
      Accepted(before, perMinute, credential) +
        if last.credential == credential && TakeWait(StoredAfter(before, perMinute, credential), perMinute, last.at) == 0
        then [last.at] else []
  }

  ghost predicate CallsUntil(calls: seq<Call>, clock: real) {
    && (forall i, j | 0 <= i < j < |calls| :: calls[i].at <= calls[j].at)
    && (forall i | 0 <= i < |calls| :: calls[i].at <= clock)
  }

  ghost predicate Spaced(accepted: seq<real>, perMinute: nat) {
    forall i | 0 <= i < |accepted| - perMinute :: accepted[i + perMinute] - accepted[i] >= WINDOW
  }

  lemma {:induction false} StoredKeeps(calls: seq<Call>, perMinute: nat, credential: string, clock: real)
    requires CallsUntil(calls, clock) && perMinute > 0
    ensures var stored, all := StoredAfter(calls, perMinute, credential), Accepted(calls, perMinute, credential);
      && Before(all, clock) && Suffix(stored, all) && |stored| <= perMinute && |Live(all, clock)| <= |stored|
      && Spaced(all, perMinute)
  {
    if calls != [] {
      var before, last := calls[..|calls| - 1], calls[|calls| - 1];
      StoredKeeps(before, perMinute, credential, last.at);
      var stored, all := StoredAfter(before, perMinute, credential), Accepted(before, perMinute, credential);
      if last.credential == credential {
        TakeKeeps(stored, all, perMinute, last.at);
      } else {
        assert all + [] == all;
      }
      LiveShrinks(Accepted(calls, perMinute, credential), last.at, clock);
    }
  }

  lemma SpacedApart(all: seq<real>, perMinute: nat, i: nat, j: nat)
    requires Spaced(all, perMinute) && InOrder(all) && i + perMinute <= j < |all|
    ensures all[j] - all[i] >= WINDOW
  {
    assert all[i + perMinute] <= all[j];
  }

  lemma SpacedOn(all: seq<real>, perMinute: nat, now: real)
    requires perMinute > 0 && InOrder(all) && Spaced(all, perMinute) && |Live(all, now)| < perMinute
    ensures Spaced(all + [now], perMinute)
  {
    LiveIsTheEnd(all, now);
    var more := all + [now];
    forall i | 0 <= i < |more| - perMinute
      ensures more[i + perMinute] - more[i] >= WINDOW
    {
      if i + perMinute < |all| {
        assert all[i + perMinute] - all[i] >= WINDOW;
      } else {
        assert now - all[i] >= WINDOW;
      }
    }
  }

  lemma StoredIsLive(stored: seq<real>, all: seq<real>, now: real)
    requires InOrder(all) && Suffix(stored, all) && |Live(all, now)| <= |stored|
    ensures Live(stored, now) == Live(all, now) == all[|all| - |Live(all, now)|..]
  {
    LiveIsTheEnd(all, now);
    LiveOfTheEnd(all, |all| - |stored|, now);
  }

  lemma TakeKeeps(stored: seq<real>, all: seq<real>, perMinute: nat, now: real)
    requires perMinute > 0 && Before(all, now) && Suffix(stored, all) && |stored| <= perMinute
    requires |Live(all, now)| <= |stored| && Spaced(all, perMinute)
    ensures var next := Taken(stored, perMinute, now);
      var more := all + if TakeWait(stored, perMinute, now) == 0 then [now] else [];
      && Before(more, now) && Suffix(next, more) && |next| <= perMinute && |Live(more, now)| <= |next| && Spaced(more, perMinute)
  {
    FirstLive(stored, now);
    StoredIsLive(stored, all, now);
    var live := Live(stored, now);
    if |live| >= perMinute {
      assert all + [] == all;
    } else {
      LiveAppend(all, now);
      BeforeAppend(all, now, now);
      SpacedOn(all, perMinute, now);
      assert live + [now] == (all + [now])[|all| - |live|..];
    }
  }

  /** In any window of a minute, taken anywhere in the run, at most `perMinute` requests of a credential went ahead. */
  lemma AtMostPerMinute(calls: seq<Call>, perMinute: nat, credential: string, clock: real, start: real, i: nat, j: nat)
    requires CallsUntil(calls, clock) && perMinute > 0
    requires var all := Accepted(calls, perMinute, credential);
      i <= j < |all| && start <= all[i] && all[j] < start + WINDOW
    ensures j - i + 1 <= perMinute
  {
    StoredKeeps(calls, perMinute, credential, clock);
    if j - i >= perMinute {
      SpacedApart(Accepted(calls, perMinute, credential), perMinute, i, j);
    }
  }

  /** A request is refused only when exactly `perMinute` lie in the last minute, and the wait it is told is enough. */
  lemma RefusedOnlyWhenFull(calls: seq<Call>, perMinute: nat, credential: string, now: real, later: real)
    requires CallsUntil(calls, now) && perMinute > 0
    requires var wait := TakeWait(StoredAfter(calls, perMinute, credential), perMinute, now);
      wait != 0 && later >= now + wait as real
    ensures |Live(Accepted(calls, perMinute, credential), now)| == perMinute
    ensures TakeWait(StoredAfter(calls, perMinute, credential), perMinute, later) == 0
  {
    StoredKeeps(calls, perMinute, credential, now);
    var stored, all := StoredAfter(calls, perMinute, credential), Accepted(calls, perMinute, credential);
    LiveOfTheEnd(all, |all| - |stored|, now);
    FirstLive(stored, now);
    OneWaitSuffices(stored, perMinute, now, later);
  }
}
