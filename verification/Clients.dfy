/** Which clients are made to wait, counted over the failures and requests themselves (`app/v1/throttle.py`). */
module Clients {
  import opened Throttle

  // --- who shares a bucket -------------------------------------------------------------------------------

  predicate InBlock64(n: nat, value: nat) {
    n * 0x1_0000_0000_0000_0000 <= value < (n + 1) * 0x1_0000_0000_0000_0000
  }

  predicate InBlock48(n: nat, value: nat) {
    n * 0x1_0000_0000_0000_0000_0000 <= value < (n + 1) * 0x1_0000_0000_0000_0000_0000
  }

  /** One client: the same text, the same IPv4 address, or IPv6 addresses that agree in all but their last 64 bits. */
  ghost predicate SameClient(a: Address, b: Address) {
    match a
    case Text(text) => b == a
    case V4(value) => b == a
    case V6(value) => b.V6? && exists n: nat :: InBlock64(n, value) && InBlock64(n, b.value)
  }

  /** One site: IPv6 addresses that agree in all but their last 80 bits. */
  ghost predicate SameSite(a: Address, b: Address) {
    a.V6? && b.V6? && exists n: nat :: InBlock48(n, a.value) && InBlock48(n, b.value)
  }

  lemma Block64Is(n: nat, value: nat)
    ensures InBlock64(n, value) <==> n == value / 0x1_0000_0000_0000_0000
  {
  }

  lemma Block48Is(n: nat, value: nat)
    ensures InBlock48(n, value) <==> n == value / 0x1_0000_0000_0000_0000_0000
  {
  }

  lemma ClientKey(a: Address, b: Address)
    ensures Buckets(a)[0] in Buckets(b) <==> SameClient(a, b)
  {
    if a.V6? && b.V6? {
      var n := a.value / 0x1_0000_0000_0000_0000;
      Block64Is(n, a.value);
      Block64Is(n, b.value);
      if m: nat :| InBlock64(m, a.value) && InBlock64(m, b.value) {
        Block64Is(m, a.value);
        Block64Is(m, b.value);
      }
    }
  }

  lemma SiteKey(a: Address, b: Address)
    requires a.V6?
    ensures |Buckets(a)| == 2 && (Buckets(a)[1] in Buckets(b) <==> SameSite(a, b))
  {
    if b.V6? {
      var n := a.value / 0x1_0000_0000_0000_0000_0000;
      Block48Is(n, a.value);
      Block48Is(n, b.value);
      if m: nat :| InBlock48(m, a.value) && InBlock48(m, b.value) {
        Block48Is(m, a.value);
        Block48Is(m, b.value);
      }
    }
  }

  // --- failed authentications ------------------------------------------------------------------------------

  /** The failures of the last minute that count against a bucket. */
  ghost function Counting(failures: seq<Failure>, key: Key, now: real): set<nat> {
    set i: nat | i < |failures| && key in Buckets(failures[i].address) && now - failures[i].at < 60.0
  }

  lemma {:induction false} LiveOneMore(stamps: seq<real>, t: real, now: real)
    ensures Live(stamps + [t], now) == Live(stamps, now) + if now - t < WINDOW then [t] else []
  {
    if stamps == [] {
      assert [] + [t] == [t];
    } else {
      LiveOneMore(stamps[1..], t, now);
      assert (stamps + [t])[1..] == stamps[1..] + [t];
    }
  }

  ghost predicate Counts(failure: Failure, key: Key, now: real) {
    key in Buckets(failure.address) && now - failure.at < 60.0
  }

  lemma CountingIn(before: seq<Failure>, last: Failure, key: Key, now: real, i: nat)
    ensures i in Counting(before + [last], key, now)
       <==> i in Counting(before, key, now) || (i == |before| && Counts(last, key, now))
  {
  }

  lemma CountingOneMore(before: seq<Failure>, last: Failure, key: Key, now: real)
    ensures |Counting(before + [last], key, now)| == |Counting(before, key, now)| + if Counts(last, key, now) then 1 else 0
  {
    var n: nat := |before|;
    var earlier, all := Counting(before, key, now), Counting(before + [last], key, now);
    forall i: nat
      ensures i in all <==> i in earlier || (i == n && Counts(last, key, now))
    {
      CountingIn(before, last, key, now, i);
    }
    assert n !in earlier;
    OneMore(earlier, all, n, Counts(last, key, now));
  }

  lemma OneMore(earlier: set<nat>, all: set<nat>, n: nat, counts: bool)
    requires n !in earlier && forall i: nat :: i in all <==> i in earlier || (i == n && counts)
    ensures |all| == |earlier| + if counts then 1 else 0
  {
    assert all == if counts then earlier + {n} else earlier;
  }

  lemma AllOfOneMore(before: seq<Failure>, last: Failure, key: Key, now: real)
    ensures |Live(AllOf(before + [last], key), now)|
         == |Live(AllOf(before, key), now)| + if Counts(last, key, now) then 1 else 0
  {
    var all := before + [last];
    assert all[..|all| - 1] == before;
    LiveOneMore(AllOf(before, key), last.at, now);
    assert AllOf(before, key) + [] == AllOf(before, key);
  }

  lemma {:induction false} LiveCounts(failures: seq<Failure>, key: Key, now: real)
    ensures |Live(AllOf(failures, key), now)| == |Counting(failures, key, now)|
  {
    if failures != [] {
      var before, last := failures[..|failures| - 1], failures[|failures| - 1];
      assert failures == before + [last];
      LiveCounts(before, key, now);
      CountingOneMore(before, last, key, now);
      AllOfOneMore(before, last, key, now);
    }
  }

  ghost function ClientFailures(failures: seq<Failure>, client: Address, now: real): set<nat> {
    set i: nat | i < |failures| && SameClient(client, failures[i].address) && now - failures[i].at < 60.0
  }

  ghost function SiteFailures(failures: seq<Failure>, client: Address, now: real): set<nat> {
    set i: nat | i < |failures| && SameSite(client, failures[i].address) && now - failures[i].at < 60.0
  }

  /** The client failed too often within a minute, or its site ten times as often. */
  ghost predicate TooMany(failures: seq<Failure>, client: Address, maxFailures: nat, now: real) {
    || |ClientFailures(failures, client, now)| >= maxFailures
    || (client.V6? && |SiteFailures(failures, client, now)| >= 10 * maxFailures)
  }

  lemma ClientCounts(failures: seq<Failure>, client: Address, now: real)
    ensures |Live(AllOf(failures, Buckets(client)[0]), now)| == |ClientFailures(failures, client, now)|
  {
    LiveCounts(failures, Buckets(client)[0], now);
    forall i: nat | i < |failures|
      ensures i in Counting(failures, Buckets(client)[0], now) <==> i in ClientFailures(failures, client, now)
    {
      ClientKey(client, failures[i].address);
    }
    assert Counting(failures, Buckets(client)[0], now) == ClientFailures(failures, client, now);
  }

  lemma SiteCounts(failures: seq<Failure>, client: Address, now: real)
    requires client.V6?
    ensures |Live(AllOf(failures, Buckets(client)[1]), now)| == |SiteFailures(failures, client, now)|
  {
    LiveCounts(failures, Buckets(client)[1], now);
    forall i: nat | i < |failures|
      ensures i in Counting(failures, Buckets(client)[1], now) <==> i in SiteFailures(failures, client, now)
    {
      SiteKey(client, failures[i].address);
    }
    assert Counting(failures, Buckets(client)[1], now) == SiteFailures(failures, client, now);
  }

  lemma BlockedMeans(failures: seq<Failure>, client: Address, maxFailures: nat, now: real)
    ensures FullyBlocked(failures, client, maxFailures, now) <==> TooMany(failures, client, maxFailures, now)
  {
    var keys := Buckets(client);
    ClientCounts(failures, client, now);
    assert Blocks(AllOf(failures, keys[0]), Limit(maxFailures, keys[0]), now) <==>
           |ClientFailures(failures, client, now)| >= maxFailures;
    if client.V6? {
      SiteCounts(failures, client, now);
      assert keys == [keys[0], keys[1]];
    } else {
      assert keys == [keys[0]];
    }
  }

  /** While nothing is evicted, a client is made to wait exactly when it, or its site, failed too often in the last minute. */
  lemma ClientsWaitExactly(failures: seq<Failure>, maxFailures: nat, maxTracked: nat, client: Address, now: real)
    requires Until(failures, now) && maxFailures > 0
    ensures var wait := WaitForAll(RecordAll(failures, maxFailures, maxTracked), Buckets(client), maxFailures, now);
      && (wait > 0 ==> TooMany(failures, client, maxFailures, now))
      && (NeverEvicts(failures, maxFailures, maxTracked) && TooMany(failures, client, maxFailures, now) ==> wait > 0)
  {
    DecidesLikeTheFullLimiter(failures, maxFailures, maxTracked, client, now);
    BlockedMeans(failures, client, maxFailures, now);
  }

  // --- no longer than needed -----------------------------------------------------------------------------------

  lemma {:induction false} StillLive(stamps: seq<real>, now: real, later: real)
    requires InOrder(stamps) && now <= later && Live(stamps, now) != []
    requires later - Live(stamps, now)[0] < WINDOW
    ensures |Live(stamps, later)| >= |Live(stamps, now)|
  {
    if now - stamps[0] < WINDOW {
      AllLive(stamps, later);
      LiveShrinks(stamps, now, later);
    } else {
      StillLive(stamps[1..], now, later);
    }
  }

  /** Until the second before the wait ends, a full list still blocks. */
  lemma StillBlocked(stamps: seq<real>, limit: nat, now: real, later: real)
    requires InOrder(stamps) && Blocks(stamps, limit, now) && limit > 0
    requires now <= later < now + (Wait(Live(stamps, now), now) - 1) as real
    ensures Blocks(stamps, limit, later)
  {
    StillLive(stamps, now, later);
  }

  lemma {:induction false} OneWaitsLongest(entries: seq<Entry>, keys: seq<Key>, maxFailures: nat, now: real)
    requires maxFailures > 0 && WaitForAll(entries, keys, maxFailures, now) > 0
    ensures exists k | k in keys :: WaitFor(entries, k, maxFailures, now) == WaitForAll(entries, keys, maxFailures, now)
  {
    var before, last := keys[..|keys| - 1], keys[|keys| - 1];
    assert keys == before + [last];
    if WaitForAll(entries, keys, maxFailures, now) != WaitFor(entries, last, maxFailures, now) {
      OneWaitsLongest(entries, before, maxFailures, now);
    }
  }

  lemma KeptInOrder(failures: seq<Failure>, maxFailures: nat, maxTracked: nat, now: real, key: Key)
    requires Until(failures, now) && maxFailures > 0
    ensures InOrder(StampsOf(RecordAll(failures, maxFailures, maxTracked), key))
  {
    RunKeeps(failures, maxFailures, maxTracked, now, key);
  }

  /** A client is not told to wait a second too long: up to the last second before, it would still be refused. */
  lemma NoShorterWait(failures: seq<Failure>, maxFailures: nat, maxTracked: nat, client: Address, now: real, later: real)
    requires Until(failures, now) && maxFailures > 0
    requires var wait := WaitForAll(RecordAll(failures, maxFailures, maxTracked), Buckets(client), maxFailures, now);
      now <= later < now + (wait - 1) as real
    ensures WaitForAll(RecordAll(failures, maxFailures, maxTracked), Buckets(client), maxFailures, later) > 0
  {
    var entries, keys := RecordAll(failures, maxFailures, maxTracked), Buckets(client);
    OneWaitsLongest(entries, keys, maxFailures, now);
    var k :| k in keys && WaitFor(entries, k, maxFailures, now) == WaitForAll(entries, keys, maxFailures, now);
    KeptInOrder(failures, maxFailures, maxTracked, now, k);
    StillBlocked(StampsOf(entries, k), Limit(maxFailures, k), now, later);
    WaitsWhenBlocked(entries, keys, maxFailures, later);
  }

  /** The same for the requests of a credential. */
  lemma NoShorterRefusal(calls: seq<Call>, perMinute: nat, credential: string, now: real, later: real)
    requires CallsUntil(calls, now) && perMinute > 0
    requires var wait := TakeWait(StoredAfter(calls, perMinute, credential), perMinute, now);
      now <= later < now + (wait - 1) as real
    ensures TakeWait(StoredAfter(calls, perMinute, credential), perMinute, later) > 0
  {
    StoredKeeps(calls, perMinute, credential, now);
    var stored, all := StoredAfter(calls, perMinute, credential), Accepted(calls, perMinute, credential);
    OrderedEnd(all, |all| - |stored|);
    StillBlocked(stored, perMinute, now, later);
    FirstLive(stored, later);
  }
}
