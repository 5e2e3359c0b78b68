/**
 * The whole edge's traffic over any run: the counters and day rows of `app/services/traffic.py`, filled
 * by the reconciler's transactions (`app/edge/reconcile.py`) from the running totals of every hostname.
 * Each hostname runs as in `Metering`; the counters are what its book holds, row by row.
 */
module MeteredEdge {
  import opened Wrappers
  import opened Domains
  import opened Traffic
  import opened Totals
  import M = Metering

  datatype Ledger = Ledger(counters: map<string, Counter>, days: map<Slot, Count>)

  datatype Step = Opened | WithReadings | Recorded | Changed | Settled

  // A reconciler's transaction over the ledger.
  datatype Transaction = Transaction(ledger: Ledger, step: Step)

  datatype Edge = Edge(hosts: map<string, M.State>, ledger: Ledger, transaction: Option<Transaction>)

  datatype Action =
    | Serve(host: string, count: Count)
    | Restart
    | Begin
    | Read
    | FailRead
    | Record(owners: map<string, nat>, now: Time, kept: bool)
    | Apply(changed: bool)
    | Reset(kept: bool)
    | Commit
    | Rollback

  /** The readings a transaction holds: the hosts Caddy lists. */
  function Readings(names: seq<string>, hosts: map<string, M.State>): seq<Reading> {
    if names == [] then []
    else
      var last := names[|names| - 1];
      var before := Readings(names[..|names| - 1], hosts);
      var seen := SeenOf(hosts, last);
      if seen.Some? && seen.value.listed then before + [Reading(last, seen.value.count)] else before
  }

  function SeenOf(hosts: map<string, M.State>, name: string): Option<M.Seen> {
    if name in hosts && hosts[name].open.Some? && hosts[name].open.value.phase.HasRead?
    then Some(hosts[name].open.value.phase.seen) else None
  }

  predicate Expired(counters: map<string, Counter>, name: string, now: Time) {
    name in counters && counters[name].readAt < now - COUNTER_EXPIRY
  }

  /** What `record_totals` makes of the two tables. */
  function RecordedLedger(ledger: Ledger, owners: map<string, nat>, readings: seq<Reading>, now: Time): Ledger {
    var increases := Increases(ledger.counters, owners, readings);
    Ledger(Unexpired(ReadInto(ledger.counters, readings, now), now),
           Retained(GrowDays(ledger.days, increases, now / DAY), now / DAY))
  }

  /** The same action as one hostname sees it. */
  function OnHost(e: Edge, a: Action, name: string): M.Action {
    match a
    case Serve(host, count) => M.Serve(if host == name then count else NOTHING)
    case Restart => M.Restart
    case Begin => M.Begin
    case Read => M.Read
    case FailRead => M.FailRead
    case Record(owners, now, kept) =>
      M.Record(name in owners, kept, e.transaction.Some? && Expired(e.transaction.value.ledger.counters, name, now))
    case Apply(changed) => M.Apply(changed)
    case Reset(kept) => M.Reset(kept)
    case Commit => M.Commit
    case Rollback => M.Rollback
  }

  function StepHosts(e: Edge, a: Action): map<string, M.State> {
    map name | name in e.hosts :: M.Step(e.hosts[name], OnHost(e, a, name))
  }

  function StepTransaction(e: Edge, t: Transaction, a: Action, names: seq<string>): Option<Transaction> {
    match (a, t.step)
    case (Read, Opened) => Some(t.(step := WithReadings))
    case (FailRead, Opened) => Some(t.(step := Recorded))
    case (Record(owners, now, kept), WithReadings) =>
      Some(Transaction(if kept then RecordedLedger(t.ledger, owners, Readings(names, e.hosts), now) else t.ledger, Recorded))
    case (Apply(changed), Recorded) => Some(t.(step := if changed then Changed else Settled))
    case (Reset(kept), Changed) =>
      Some(Transaction(if kept then t.ledger.(counters := Zeroed(t.ledger.counters)) else t.ledger, Settled))
    case (Commit, Settled) => None
    case (Rollback, _) => None
    case _ => Some(t)
  }

  function StepEdge(e: Edge, a: Action, names: seq<string>): Edge {
    var t := e.transaction;
    var ledger := if a.Commit? && t.Some? && t.value.step.Settled? then t.value.ledger else e.ledger;
    var after := if t.Some? then StepTransaction(e, t.value, a, names)
                 else if a.Begin? then Some(Transaction(e.ledger, Opened)) else None;
    Edge(StepHosts(e, a), ledger, after)
  }

  function First(names: seq<string>): Edge {
    Edge(map name | name in names :: M.FIRST, Ledger(map[], map[]), None)
  }

  function Run(names: seq<string>, actions: seq<Action>): Edge {
    if actions == [] then First(names)
    else StepEdge(Run(names, actions[..|actions| - 1]), actions[|actions| - 1], names)
  }

  // --- each hostname's book is its row -----------------------------------------------------------------

  predicate SameStep(step: Step, phase: M.Phase) {
    match step
    case Opened => phase.Began?
    case WithReadings => phase.HasRead?
    case Recorded => phase.Recorded?
    case Changed => phase.Changed?
    case Settled => phase.Settled?
  }

  predicate TransactionMatches(t: Option<Transaction>, open: Option<M.Transaction>, name: string) {
    && t.Some? == open.Some?
    && (t.Some? ==>
          && open.value.book.base == BaseOf(t.value.ledger.counters, name)
          && SameStep(t.value.step, open.value.phase))
  }

  predicate HostMatches(e: Edge, name: string) {
    && name in e.hosts
    && e.hosts[name].book.base == BaseOf(e.ledger.counters, name)
    && TransactionMatches(e.transaction, e.hosts[name].open, name)
  }

  lemma {:induction false} ReadingsAre(names: seq<string>, hosts: map<string, M.State>, name: string)
    requires forall i, j | 0 <= i < j < |names| :: names[i] != names[j]
    ensures var readings := Readings(names, hosts);
      var seen := SeenOf(hosts, name);
      && DistinctHosts(readings)
      && (forall i | 0 <= i < |readings| :: readings[i].host in names)
      && (if name in names && seen.Some? && seen.value.listed
          then exists i | 0 <= i < |readings| :: readings[i] == Reading(name, seen.value.count)
          else forall i | 0 <= i < |readings| :: readings[i].host != name)
  {
    if names != [] {
      var before, last := names[..|names| - 1], names[|names| - 1];
      ReadingsAre(before, hosts, name);
      assert names == before + [last];
      var readings := Readings(names, hosts);
      if name == last && SeenOf(hosts, name).Some? && SeenOf(hosts, name).value.listed {
        assert readings[|readings| - 1] == Reading(name, SeenOf(hosts, name).value.count);
      } else if name in before && SeenOf(hosts, name).Some? && SeenOf(hosts, name).value.listed {
        var i :| 0 <= i < |Readings(before, hosts)|
          && Readings(before, hosts)[i] == Reading(name, SeenOf(hosts, name).value.count);
        assert readings[i] == Reading(name, SeenOf(hosts, name).value.count);
      }
    }
  }

  /** Recording leaves each hostname the base its own book then has. */
  lemma RecordedBase(ledger: Ledger, owners: map<string, nat>, names: seq<string>, hosts: map<string, M.State>, now: Time,
                     name: string, book: M.Book)
    requires forall i, j | 0 <= i < j < |names| :: names[i] != names[j]
    requires name in names && SeenOf(hosts, name).Some? && book.base == BaseOf(ledger.counters, name)
    ensures var after := RecordedLedger(ledger, owners, Readings(names, hosts), now);
      M.RecordedBook(book, SeenOf(hosts, name).value, name in owners, Expired(ledger.counters, name, now)).base
      == BaseOf(after.counters, name)
  {
    var readings := Readings(names, hosts);
    ReadingsAre(names, hosts, name);
    BaselineAfter(ledger.counters, readings, now, name);
  }

  lemma ZeroedBase(counters: map<string, Counter>, name: string)
    ensures BaseOf(Zeroed(counters), name) == NOTHING
  {
  }

  lemma HostRecords(e: Edge, a: Action, names: seq<string>, name: string)
    requires forall i, j | 0 <= i < j < |names| :: names[i] != names[j]
    requires name in names && HostMatches(e, name)
    requires a.Record? && e.transaction.Some? && e.transaction.value.step.WithReadings?
    ensures HostMatches(StepEdge(e, a, names), name)
  {
    var t := e.transaction.value;
    RecordedBase(t.ledger, a.owners, names, e.hosts, a.now, name, e.hosts[name].open.value.book);
  }

  lemma TransactionSteps(e: Edge, t: Transaction, a: Action, names: seq<string>, h: M.State, name: string)
    requires h.open.Some? && TransactionMatches(Some(t), h.open, name) && !(a.Record? && t.step.WithReadings?)
    ensures TransactionMatches(StepTransaction(e, t, a, names), M.Step(h, OnHost(e, a, name)).open, name)
  {
    ZeroedBase(t.ledger.counters, name);
  }

  lemma HostSteps(e: Edge, a: Action, names: seq<string>, name: string)
    requires forall i, j | 0 <= i < j < |names| :: names[i] != names[j]
    requires name in names && HostMatches(e, name)
    ensures HostMatches(StepEdge(e, a, names), name)
  {
    var t := e.transaction;
    if a.Record? && t.Some? && t.value.step.WithReadings? {
      HostRecords(e, a, names, name);
    } else {
      if t.Some? {
        TransactionSteps(e, t.value, a, names, e.hosts[name], name);
      }
      CommittedBase(e, a, names, name);
    }
  }

  lemma CommittedBase(e: Edge, a: Action, names: seq<string>, name: string)
    requires HostMatches(e, name)
    ensures StepHosts(e, a)[name].book.base == BaseOf(StepEdge(e, a, names).ledger.counters, name)
  {
  }

  // --- the totals ----------------------------------------------------------------------------------------

  function Served(e: Edge): map<string, Count> {
    map name | name in e.hosts :: e.hosts[name].served
  }

  function Credited(e: Edge): map<string, Count> {
    map name | name in e.hosts :: e.hosts[name].book.credited
  }

  function SoFar(h: M.State): Count {
    if h.open.Some? then h.open.value.book.credited else h.book.credited
  }

  /** What the open transaction has credited. */
  function CreditedSoFar(e: Edge): map<string, Count> {
    map name | name in e.hosts :: SoFar(e.hosts[name])
  }

  /** What recording the readings credits a hostname. */
  function AddedAt(ledger: Ledger, owners: map<string, nat>, hosts: map<string, M.State>, name: string): Count {
    var seen := SeenOf(hosts, name);
    if seen.Some? && seen.value.listed && name in owners then Added(BaseOf(ledger.counters, name), seen.value.count)
    else NOTHING
  }

  lemma NextReading(counters: map<string, Counter>, owners: map<string, nat>, rest: seq<Reading>, next: Reading)
    ensures Total(Increases(counters, owners, rest + [next])) ==
      if next.host in owners
      then Total(Increases(counters, owners, rest)).Plus(Added(BaseOf(counters, next.host), next.count))
      else Total(Increases(counters, owners, rest))
  {
    assert (rest + [next])[..|rest|] == rest;
    if next.host in owners {
      IncreasedAdds(Increases(counters, owners, rest), owners[next.host], Added(BaseOf(counters, next.host), next.count));
    }
  }

  lemma OneMoreHost(ledger: Ledger, owners: map<string, nat>, names: seq<string>, hosts: map<string, M.State>)
    requires names != []
    ensures var before, last := names[..|names| - 1], names[|names| - 1];
      Total(Increases(ledger.counters, owners, Readings(names, hosts)))
      == Total(Increases(ledger.counters, owners, Readings(before, hosts))).Plus(AddedAt(ledger, owners, hosts, last))
  {
    var before, last := names[..|names| - 1], names[|names| - 1];
    var rest, seen := Readings(before, hosts), SeenOf(hosts, last);
    PlusNothing(Total(Increases(ledger.counters, owners, rest)));
    if seen.Some? && seen.value.listed {
      assert Readings(names, hosts) == rest + [Reading(last, seen.value.count)];
      NextReading(ledger.counters, owners, rest, Reading(last, seen.value.count));
      if last in owners {
        assert AddedAt(ledger, owners, hosts, last) == Added(BaseOf(ledger.counters, last), seen.value.count);
      } else {
        assert AddedAt(ledger, owners, hosts, last) == NOTHING;
      }
    } else {
      assert AddedAt(ledger, owners, hosts, last) == NOTHING;
      assert Readings(names, hosts) == rest;
    }
  }

  lemma {:induction false} IncreasesAreWhatIsAdded(ledger: Ledger, owners: map<string, nat>, names: seq<string>,
                                                   hosts: map<string, M.State>, added: map<string, Count>)
    requires Covers(added, names) && forall n | n in names :: added[n] == AddedAt(ledger, owners, hosts, n)
    ensures Total(Increases(ledger.counters, owners, Readings(names, hosts))) == SumOver(names, added)
    decreases |names|
  {
    if names != [] {
      IncreasesAreWhatIsAdded(ledger, owners, names[..|names| - 1], hosts, added);
      OneMoreHost(ledger, owners, names, hosts);
      assert names[|names| - 1] in names;
    }
  }

  predicate Records(e: Edge, a: Action) {
    a.Record? && a.kept && e.transaction.Some? && e.transaction.value.step.WithReadings?
  }

  predicate Commits(e: Edge, a: Action) {
    a.Commit? && e.transaction.Some? && e.transaction.value.step.Settled?
  }

  lemma HostCredits(e: Edge, a: Action, name: string)
    requires HostMatches(e, name)
    ensures var h, after := e.hosts[name], StepHosts(e, a)[name];
      && after.book.credited == (if Commits(e, a) then SoFar(h) else h.book.credited)
      && (Records(e, a) ==> SoFar(after) == SoFar(h).Plus(AddedAt(e.transaction.value.ledger, a.owners, e.hosts, name)))
      && (!Records(e, a) && !a.Rollback? ==> SoFar(after) == SoFar(h))
  {
    if Records(e, a) {
      PlusNothing(SoFar(e.hosts[name]));
    }
  }

  /** The day rows hold no more than the hostnames' books have credited. */
  ghost predicate Within(e: Edge, names: seq<string>) {
    && (forall n | n in names :: HostMatches(e, n))
    && SumOver(names, Credited(e)).AtLeast(Total(e.ledger.days))
    && (e.transaction.Some? ==> SumOver(names, CreditedSoFar(e)).AtLeast(Total(e.transaction.value.ledger.days)))
  }

  lemma RecordCredits(e: Edge, a: Action, names: seq<string>, added: map<string, Count>)
    requires Within(e, names) && Records(e, a) && Covers(added, names)
    requires forall n | n in names :: added[n] == AddedAt(e.transaction.value.ledger, a.owners, e.hosts, n)
    ensures Covers(CreditedSoFar(StepEdge(e, a, names)), names)
    ensures SumOver(names, CreditedSoFar(StepEdge(e, a, names))) == SumOver(names, CreditedSoFar(e)).Plus(SumOver(names, added))
  {
    var after := CreditedSoFar(StepEdge(e, a, names));
    forall n | n in names
      ensures after[n] == CreditedSoFar(e)[n].Plus(added[n])
    {
      HostCredits(e, a, n);
    }
    SumOfSums(names, CreditedSoFar(e), added, after);
  }

  lemma StillWithin(credited: Count, days: Count, added: Count, after: Count)
    requires credited.AtLeast(days) && days.Plus(added).AtLeast(after)
    ensures credited.Plus(added).AtLeast(after)
  {
  }

  lemma RecordedDays(e: Edge, a: Action, names: seq<string>)
    requires Records(e, a)
    ensures var ledger, after := e.transaction.value.ledger, StepEdge(e, a, names);
      var increases := Increases(ledger.counters, a.owners, Readings(names, e.hosts));
      && after.transaction.Some?
      && after.transaction.value.ledger.days == Retained(GrowDays(ledger.days, increases, a.now / DAY), a.now / DAY)
  {
  }

  lemma DaysWithin(ledger: Ledger, owners: map<string, nat>, names: seq<string>, hosts: map<string, M.State>,
                   added: map<string, Count>, today: int)
    requires Covers(added, names) && forall n | n in names :: added[n] == AddedAt(ledger, owners, hosts, n)
    ensures var increases := Increases(ledger.counters, owners, Readings(names, hosts));
      Total(ledger.days).Plus(SumOver(names, added)).AtLeast(Total(Retained(GrowDays(ledger.days, increases, today), today)))
  {
    IncreasesAreWhatIsAdded(ledger, owners, names, hosts, added);
    RecordingAddsAtMost(ledger.days, Increases(ledger.counters, owners, Readings(names, hosts)), today);
  }

  lemma RecordWithin(e: Edge, a: Action, names: seq<string>)
    requires Within(e, names) && Records(e, a)
    ensures var after := StepEdge(e, a, names);
      Covers(CreditedSoFar(after), names)
      && SumOver(names, CreditedSoFar(after)).AtLeast(Total(after.transaction.value.ledger.days))
  {
    var ledger := e.transaction.value.ledger;
    var added := map n | n in names :: AddedAt(ledger, a.owners, e.hosts, n);
    RecordCredits(e, a, names, added);
    DaysWithin(ledger, a.owners, names, e.hosts, added, a.now / DAY);
    RecordedDays(e, a, names);
    StillWithin(SumOver(names, CreditedSoFar(e)), Total(ledger.days), SumOver(names, added),
                Total(StepEdge(e, a, names).transaction.value.ledger.days));
  }

  lemma {:induction false} SameSum(names: seq<string>, a: map<string, Count>, b: map<string, Count>)
    requires Covers(a, names) && Covers(b, names) && forall n | n in names :: a[n] == b[n]
    ensures SumOver(names, a) == SumOver(names, b)
  {
    if names != [] {
      SameSum(names[..|names| - 1], a, b);
      assert names[|names| - 1] in names;
    }
  }

  lemma StepWithin(e: Edge, a: Action, names: seq<string>)
    requires forall i, j | 0 <= i < j < |names| :: names[i] != names[j]
    requires Within(e, names)
    ensures Within(StepEdge(e, a, names), names)
  {
    var after := StepEdge(e, a, names);
    forall n | n in names
      ensures HostMatches(after, n)
      ensures Credited(after)[n] == (if Commits(e, a) then CreditedSoFar(e)[n] else Credited(e)[n])
      ensures !Records(e, a) && !a.Rollback? ==> CreditedSoFar(after)[n] == CreditedSoFar(e)[n]
      ensures e.transaction.None? ==> CreditedSoFar(e)[n] == Credited(e)[n]
    {
      HostSteps(e, a, names, n);
      HostCredits(e, a, n);
    }
    SameSum(names, Credited(after), if Commits(e, a) then CreditedSoFar(e) else Credited(e));
    if Records(e, a) {
      RecordWithin(e, a, names);
    } else if !a.Rollback? {
      SameSum(names, CreditedSoFar(after), CreditedSoFar(e));
      if e.transaction.None? {
        SameSum(names, CreditedSoFar(e), Credited(e));
      }
    }
  }

  lemma {:induction false} RunWithin(names: seq<string>, actions: seq<Action>)
    requires forall i, j | 0 <= i < j < |names| :: names[i] != names[j]
    ensures Within(Run(names, actions), names)
    ensures forall n | n in names :: M.Inv(Run(names, actions).hosts[n])
    decreases |actions|
  {
    if actions != [] {
      var before := Run(names, actions[..|actions| - 1]);
      RunWithin(names, actions[..|actions| - 1]);
      StepWithin(before, actions[|actions| - 1], names);
      forall n | n in names
        ensures M.Inv(Run(names, actions).hosts[n])
      {
        M.StepInv(before.hosts[n], OnHost(before, actions[|actions| - 1], n));
      }
    }
  }

  /**
   * However the edge and its reconcilers run, all day rows of all applications together never hold more
   * requests or bytes than were served on all hostnames together.
   */
  lemma RecordedAtMostServed(names: seq<string>, actions: seq<Action>)
    requires forall i, j | 0 <= i < j < |names| :: names[i] != names[j]
    ensures var e := Run(names, actions);
      Covers(Served(e), names) && SumOver(names, Served(e)).AtLeast(Total(e.ledger.days))
  {
    RunWithin(names, actions);
    var e := Run(names, actions);
    SumAtLeast(names, Served(e), Credited(e));
  }
}
