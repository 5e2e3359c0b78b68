/**
 * All domains of a deployment: registering, importing and the limits (`app/services/domains.py`,
 * `app/services/limits.py`, `app/legacy.py`).
 */
module Registry {
  import opened Wrappers
  import opened Domains
  import opened DnsChecks
  import opened Lifecycle
  import Gateway
  import Agreement

  const MAX_REFERENCE_LENGTH := 255
  const REGISTRATION_WINDOW: Time := HOUR
  const REGISTRATION_MAX_PER_WINDOW := 120

  datatype App = App(active: bool, maxDomains: Option<nat>, cnameTarget: string)

  // A registration as the event log has it.
  datatype Creation = Creation(app: nat, at: Time)

  // `limit` is the deployment's; a row names its application by its place in `apps`.
  datatype Book = Book(apps: seq<App>, limit: Option<nat>, rows: seq<Row>, created: seq<Creation>)

  datatype ClaimError =
    | ApplicationSuspended
    | InvalidReference
    | InvalidHostname
    | DomainLimitReached
    | TooManyRegistrations(retryAfter: int)
    | HostnameAlreadyClaimed

  // --- counting ----------------------------------------------------------------------------------------

  function LiveCount(rows: seq<Row>, app: Option<nat>): nat {
    if rows == [] then 0
    else
      var last := rows[|rows| - 1];
      LiveCount(rows[..|rows| - 1], app)
        + if last.deletedAt.None? && (app.None? || last.applicationId == app.value) then 1 else 0
  }

  /** When the application's registrations after `since` were made. */
  function Recent(created: seq<Creation>, app: nat, since: Time): seq<Time> {
    if created == [] then []
    else
      var last := created[|created| - 1];
      Recent(created[..|created| - 1], app, since) + if last.app == app && last.at > since then [last.at] else []
  }

  function Earliest(times: seq<Time>): Time
    requires times != []
  {
    if |times| == 1 then times[0]
    else if times[0] < Earliest(times[1..]) then times[0] else Earliest(times[1..])
  }

  predicate Taken(rows: seq<Row>, hostname: string) {
    exists row | row in rows :: row.deletedAt.None? && row.hostname == hostname
  }

  predicate LimitReached(book: Book, app: nat)
    requires app < |book.apps|
  {
    || (book.apps[app].maxDomains.Some? && LiveCount(book.rows, Some(app)) >= book.apps[app].maxDomains.value)
    || (book.limit.Some? && LiveCount(book.rows, None) >= book.limit.value)
  }

  // --- registering ---------------------------------------------------------------------------------------

  /** The errors in the order they are found; the database itself refuses a second live row for a hostname. */
  function ClaimCheck(book: Book, canon: Gateway.Canon, app: nat, hostname: string, reference: string, now: Time)
    : Result<string, ClaimError>
    requires app < |book.apps|
  {
    var recent := Recent(book.created, app, now - REGISTRATION_WINDOW);
    if !book.apps[app].active then Failure(ApplicationSuspended)
    else if Strip(reference) == "" || |reference| > MAX_REFERENCE_LENGTH then Failure(InvalidReference)
    else if canon(hostname).None? then Failure(InvalidHostname)
    else if LimitReached(book, app) then Failure(DomainLimitReached)
    else if |recent| >= REGISTRATION_MAX_PER_WINDOW then
      Failure(TooManyRegistrations((Earliest(recent) + REGISTRATION_WINDOW - now + SECOND - 1) / SECOND))
    else if Taken(book.rows, canon(hostname).value) then Failure(HostnameAlreadyClaimed)
    else Success(canon(hostname).value)
  }

  function WithRow(book: Book, row: Row, now: Time): Book {
    book.(rows := book.rows + [row], created := book.created + [Creation(row.applicationId, now)])
  }

  function Claimed(book: Book, canon: Gateway.Canon, app: nat, hostname: string, reference: string, seed: Seed, now: Time)
    : Result<Book, ClaimError>
    requires app < |book.apps|
  {
    var canonical :- ClaimCheck(book, canon, app, hostname, reference, now);
    Success(WithRow(book, NewRow(app, canonical, Strip(reference), seed, book.apps[app].cnameTarget, now), now))
  }

  // --- importing -----------------------------------------------------------------------------------------

  datatype Importing = Importing(references: map<string, string>, grandfather: bool, hostnameAsReference: bool)

  datatype Reason = BadHostname | MissingReference | NoRoom | ClaimedElsewhere

  datatype Fate = WasImported | WasExisting | WasSkipped(reason: Reason)

  function ReferenceFor(import_: Importing, entry: string, canonical: string): string {
    var known := if canonical in import_.references then import_.references[canonical] else "";
    var other := if entry in import_.references then import_.references[entry] else "";
    if known != "" then known
    else if other != "" then other
    else if import_.hostnameAsReference then canonical
    else ""
  }

  function AfterImport(row: Row, grandfather: bool, now: Time): Row {
    var imported := ImportRow(row, grandfather, now);
    if imported.Success? then imported.value else row
  }

  predicate OwnedBy(rows: seq<Row>, hostname: string, app: nat) {
    exists row | row in rows :: row.deletedAt.None? && row.hostname == hostname && row.applicationId == app
  }

  /** One entry of an import; an error it does not expect ends the import. */
  function ImportOne(book: Book, canon: Gateway.Canon, app: nat, import_: Importing, entry: string, seed: Seed, now: Time)
    : Result<(Book, Fate), ClaimError>
    requires app < |book.apps|
  {
    var canonical := canon(entry);
    if canonical.None? then Success((book, WasSkipped(BadHostname)))
    else
      var reference := ReferenceFor(import_, entry, canonical.value);
      if reference == "" then Success((book, WasSkipped(MissingReference)))
      else
        match ClaimCheck(book, canon, app, canonical.value, reference, now)
        case Failure(DomainLimitReached) => Success((book, WasSkipped(NoRoom)))
        case Failure(HostnameAlreadyClaimed) =>
          if OwnedBy(book.rows, canonical.value, app) then Success((book, WasExisting))
          else Success((book, WasSkipped(ClaimedElsewhere)))
        case Failure(error) => Failure(error)
        case Success(hostname) =>
          var row := NewRow(app, hostname, Strip(reference), seed, book.apps[app].cnameTarget, now);
          Success((WithRow(book, AfterImport(row, import_.grandfather, now), now), WasImported))
  }

  /** Every entry in turn, or nothing at all: an import that fails is rolled back. */
  function ImportAll(book: Book, canon: Gateway.Canon, app: nat, import_: Importing, entries: seq<string>,
                     seeds: seq<Seed>, now: Time): (imported: Result<(Book, seq<Fate>), ClaimError>)
    requires app < |book.apps| && |seeds| == |entries|
    ensures imported.Success? ==> imported.value.0.apps == book.apps && |imported.value.1| == |entries|
    decreases |entries|
  {
    if entries == [] then Success((book, []))
    else
      var n := |entries| - 1;
      var before :- ImportAll(book, canon, app, import_, entries[..n], seeds[..n], now);
      var last :- ImportOne(before.0, canon, app, import_, entries[n], seeds[n], now);
      Success((last.0, before.1 + [last.1]))
  }

  class Deployment {
    var apps: seq<App>
    var limit: Option<nat>
    var rows: seq<Row>
    var created: seq<Creation>

    function Contents(): Book
      reads this
    {
      Book(apps, limit, rows, created)
    }

    constructor (apps: seq<App>, limit: Option<nat>)
      ensures Contents() == Book(apps, limit, [], [])
    {
      this.apps, this.limit, rows, created := apps, limit, [], [];
    }

    method ClaimDomain(canon: Gateway.Canon, app: nat, hostname: string, reference: string, seed: Seed, now: Time)
      returns (error: Option<ClaimError>)
      requires app < |apps|
      modifies this
      ensures var claimed := Claimed(old(Contents()), canon, app, hostname, reference, seed, now);
        if claimed.Success? then error.None? && Contents() == claimed.value
        else error == Some(claimed.error) && Contents() == old(Contents())
    {
      if !apps[app].active {
        return Some(ApplicationSuspended);
      }
      if Strip(reference) == "" || |reference| > MAX_REFERENCE_LENGTH {
        return Some(InvalidReference);
      }
      var canonical := canon(hostname);
      if canonical.None? {
        return Some(InvalidHostname);
      }
      var full := Enforce(app);
      if full {
        return Some(DomainLimitReached);
      }
      var recent := Recent(created, app, now - REGISTRATION_WINDOW);
      if |recent| >= REGISTRATION_MAX_PER_WINDOW {
        return Some(TooManyRegistrations((Earliest(recent) + REGISTRATION_WINDOW - now + SECOND - 1) / SECOND));
      }
      if Taken(rows, canonical.value) {
        return Some(HostnameAlreadyClaimed);
      }
      rows := rows + [NewRow(app, canonical.value, Strip(reference), seed, apps[app].cnameTarget, now)];
      created := created + [Creation(app, now)];
      error := None;
    }

    method Enforce(app: nat) returns (full: bool)
      requires app < |apps|
      ensures full == LimitReached(Contents(), app)
    {
      if apps[app].maxDomains.Some? {
        var live := LiveCount(rows, Some(app));
        if live >= apps[app].maxDomains.value {
          return true;
        }
      }
      if limit.Some? {
        var live := LiveCount(rows, None);
        return live >= limit.value;
      }
      full := false;
    }

    /** On an error the transaction is rolled back, so the object is only changed by a complete import. */
    method ImportLegacyDomains(canon: Gateway.Canon, app: nat, import_: Importing, entries: seq<string>, seeds: seq<Seed>,
                               now: Time) returns (report: Result<seq<Fate>, ClaimError>)
      requires app < |apps| && |seeds| == |entries|
      modifies this
      ensures var imported := ImportAll(old(Contents()), canon, app, import_, entries, seeds, now);
        if imported.Success? then report == Success(imported.value.1) && Contents() == imported.value.0
        else report == Failure(imported.error) && Contents() == old(Contents())
    {
      var book, fates := Contents(), [];
      for i := 0 to |entries|
        invariant book.apps == apps && Contents() == old(Contents())
        invariant ImportAll(Contents(), canon, app, import_, entries[..i], seeds[..i], now) == Success((book, fates))
      {
        assert entries[..i + 1][..i] == entries[..i] && seeds[..i + 1][..i] == seeds[..i];
        var one := ImportOne(book, canon, app, import_, entries[i], seeds[i], now);
        if one.Failure? {
          FailsEarly(Contents(), canon, app, import_, entries, seeds, now, i + 1);
          return Failure(one.error);
        }
        book, fates := one.value.0, fates + [one.value.1];
      }
      assert entries[..|entries|] == entries && seeds[..|seeds|] == seeds;
      apps, limit, rows, created := book.apps, book.limit, book.rows, book.created;
      report := Success(fates);
    }
  }

  lemma {:induction false} FailsEarly(book: Book, canon: Gateway.Canon, app: nat, import_: Importing, entries: seq<string>,
                                      seeds: seq<Seed>, now: Time, i: nat)
    requires app < |book.apps| && |seeds| == |entries| && i <= |entries|
    requires ImportAll(book, canon, app, import_, entries[..i], seeds[..i], now).Failure?
    ensures ImportAll(book, canon, app, import_, entries, seeds, now)
         == ImportAll(book, canon, app, import_, entries[..i], seeds[..i], now)
    decreases |entries|
  {
    if i == |entries| {
      assert entries[..i] == entries && seeds[..i] == seeds;
    } else {
      var n := |entries| - 1;
      assert entries[..n][..i] == entries[..i] && seeds[..n][..i] == seeds[..i];
      FailsEarly(book, canon, app, import_, entries[..n], seeds[..n], now, i);
    }
  }

  // --- what registering keeps ------------------------------------------------------------------------------

  /** Registrations of an application within the hour that starts at `start`. */
  function CountIn(created: seq<Creation>, app: nat, start: Time): nat {
    if created == [] then 0
    else
      var last := created[|created| - 1];
      CountIn(created[..|created| - 1], app, start)
        + if last.app == app && start <= last.at < start + REGISTRATION_WINDOW then 1 else 0
  }

  lemma {:induction false} WindowIsRecent(created: seq<Creation>, app: nat, start: Time, now: Time)
    requires start <= now < start + REGISTRATION_WINDOW
    ensures CountIn(created, app, start) <= |Recent(created, app, now - REGISTRATION_WINDOW)|
  {
    if created != [] {
      WindowIsRecent(created[..|created| - 1], app, start, now);
    }
  }

  ghost predicate BookOk(book: Book, canon: Gateway.Canon) {
    && Agreement.LiveOnce(book.rows) && Agreement.LiveCanonical(book.rows, canon)
    && forall app: nat, start: Time :: CountIn(book.created, app, start) <= REGISTRATION_MAX_PER_WINDOW
  }

  ghost predicate Idempotent(canon: Gateway.Canon) {
    forall host: string :: canon(host).Some? ==> canon(canon(host).value) == canon(host)
  }

  lemma WithRowOk(book: Book, canon: Gateway.Canon, row: Row, now: Time)
    requires BookOk(book, canon) && row.deletedAt.None?
    requires canon(row.hostname) == Some(row.hostname) && !Taken(book.rows, row.hostname)
    requires |Recent(book.created, row.applicationId, now - REGISTRATION_WINDOW)| < REGISTRATION_MAX_PER_WINDOW
    ensures BookOk(WithRow(book, row, now), canon)
  {
    var after := WithRow(book, row, now);
    assert forall i | 0 <= i < |book.rows| :: book.rows[i] in book.rows;
    forall app: nat, start: Time
      ensures CountIn(after.created, app, start) <= REGISTRATION_MAX_PER_WINDOW
    {
      assert after.created[..|after.created| - 1] == book.created;
      if start <= now < start + REGISTRATION_WINDOW && app == row.applicationId {
        WindowIsRecent(book.created, app, start, now);
      }
    }
  }

  lemma LiveCountGrows(rows: seq<Row>, row: Row, app: Option<nat>)
    ensures LiveCount(rows + [row], app)
         == LiveCount(rows, app) + if row.deletedAt.None? && (app.None? || row.applicationId == app.value) then 1 else 0
  {
  }

  ghost predicate WithinLimits(book: Book, app: nat)
    requires app < |book.apps|
  {
    && (book.apps[app].maxDomains.Some? ==> LiveCount(book.rows, Some(app)) <= book.apps[app].maxDomains.value)
    && (book.limit.Some? ==> LiveCount(book.rows, None) <= book.limit.value)
  }

  /** A row added while no limit is reached leaves both limits kept. */
  lemma AddedWithinLimits(book: Book, row: Row, app: nat, now: Time)
    requires app < |book.apps| && row.deletedAt.None? && row.applicationId == app && !LimitReached(book, app)
    ensures WithinLimits(WithRow(book, row, now), app)
  {
    LiveCountGrows(book.rows, row, Some(app));
    LiveCountGrows(book.rows, row, None);
  }

  /** What a successful claim had checked. */
  lemma ClaimChecked(book: Book, canon: Gateway.Canon, app: nat, hostname: string, reference: string, now: Time)
    requires Idempotent(canon) && app < |book.apps| && ClaimCheck(book, canon, app, hostname, reference, now).Success?
    ensures var canonical := ClaimCheck(book, canon, app, hostname, reference, now).value;
      && Some(canonical) == canon(hostname) && canon(canonical) == Some(canonical)
      && !LimitReached(book, app) && !Taken(book.rows, canonical)
      && |Recent(book.created, app, now - REGISTRATION_WINDOW)| < REGISTRATION_MAX_PER_WINDOW
  {
  }

  /** A successful claim adds one live row under the canonical name, and the limits hold afterwards. */
  lemma ClaimKeeps(book: Book, canon: Gateway.Canon, app: nat, hostname: string, reference: string, seed: Seed, now: Time)
    requires BookOk(book, canon) && Idempotent(canon) && app < |book.apps|
    requires Claimed(book, canon, app, hostname, reference, seed, now).Success?
    ensures var after := Claimed(book, canon, app, hostname, reference, seed, now).value;
      && BookOk(after, canon) && WithinLimits(after, app)
      && |after.rows| == |book.rows| + 1 && after.rows[..|book.rows|] == book.rows
      && var row := after.rows[|book.rows|];
      && RowInv(row) && row.deletedAt.None? && row.applicationId == app && Some(row.hostname) == canon(hostname)
      && row.events[0] == Event(DomainCreated, now)
  {
    var canonical := ClaimCheck(book, canon, app, hostname, reference, now).value;
    ClaimChecked(book, canon, app, hostname, reference, now);
    NewRowInv(app, canonical, Strip(reference), seed, book.apps[app].cnameTarget, now);
    ClaimedRow(book, canon, app, NewRow(app, canonical, Strip(reference), seed, book.apps[app].cnameTarget, now), now);
  }

  /** Adding the row of a claim that passed its checks. */
  lemma ClaimedRow(book: Book, canon: Gateway.Canon, app: nat, row: Row, now: Time)
    requires BookOk(book, canon) && app < |book.apps| && row.deletedAt.None? && row.applicationId == app
    requires canon(row.hostname) == Some(row.hostname) && !Taken(book.rows, row.hostname) && !LimitReached(book, app)
    requires |Recent(book.created, app, now - REGISTRATION_WINDOW)| < REGISTRATION_MAX_PER_WINDOW
    ensures var after := WithRow(book, row, now);
      && BookOk(after, canon) && WithinLimits(after, app)
      && |after.rows| == |book.rows| + 1 && after.rows[..|book.rows|] == book.rows && after.rows[|book.rows|] == row
  {
    WithRowOk(book, canon, row, now);
    AddedWithinLimits(book, row, app, now);
  }

  lemma AfterImportIs(app: nat, hostname: string, reference: string, seed: Seed, target: string, grandfather: bool, now: Time)
    ensures var row := NewRow(app, hostname, reference, seed, target, now);
      var after := AfterImport(row, grandfather, now);
      RowInv(after) && after.deletedAt.None? && after.applicationId == app && after.hostname == hostname
  {
    NewRowInv(app, hostname, reference, seed, target, now);
    var row := NewRow(app, hostname, reference, seed, target, now);
    assert !PassingCheck(row, Routing) by { assert row.checks.Get(Routing).value.status.Pending?; }
    ImportKeeps(row, grandfather, now);
  }

  /** What an imported entry adds, and what had to hold for it. */
  lemma ImportedRow(book: Book, canon: Gateway.Canon, app: nat, import_: Importing, entry: string, seed: Seed, now: Time)
    returns (row: Row)
    requires Idempotent(canon) && app < |book.apps|
    requires ImportOne(book, canon, app, import_, entry, seed, now).Success?
    requires ImportOne(book, canon, app, import_, entry, seed, now).value.1.WasImported?
    ensures ImportOne(book, canon, app, import_, entry, seed, now).value.0 == WithRow(book, row, now)
    ensures row.deletedAt.None? && row.applicationId == app && canon(entry) == Some(row.hostname)
    ensures !Taken(book.rows, row.hostname) && !LimitReached(book, app)
    ensures |Recent(book.created, app, now - REGISTRATION_WINDOW)| < REGISTRATION_MAX_PER_WINDOW
  {
    var hostname := canon(entry).value;
    var reference := Strip(ReferenceFor(import_, entry, hostname));
    AfterImportIs(app, hostname, reference, seed, book.apps[app].cnameTarget, import_.grandfather, now);
    row := AfterImport(NewRow(app, hostname, reference, seed, book.apps[app].cnameTarget, now), import_.grandfather, now);
  }

  lemma ImportOneKeeps(book: Book, canon: Gateway.Canon, app: nat, import_: Importing, entry: string, seed: Seed, now: Time)
    requires BookOk(book, canon) && Idempotent(canon) && app < |book.apps|
    requires ImportOne(book, canon, app, import_, entry, seed, now).Success?
    ensures var one := ImportOne(book, canon, app, import_, entry, seed, now).value;
      && BookOk(one.0, canon)
      && (one.1.WasImported? ==> WithinLimits(one.0, app) && |one.0.rows| == |book.rows| + 1)
      && (!one.1.WasImported? ==> one.0 == book)
      && (one.1.WasExisting? ==> canon(entry).Some? && OwnedBy(book.rows, canon(entry).value, app))
  {
    if ImportOne(book, canon, app, import_, entry, seed, now).value.1.WasImported? {
      var row := ImportedRow(book, canon, app, import_, entry, seed, now);
      WithRowOk(book, canon, row, now);
      LiveCountGrows(book.rows, row, Some(app));
      LiveCountGrows(book.rows, row, None);
    }
  }

  lemma {:induction false} ImportKeepsBook(book: Book, canon: Gateway.Canon, app: nat, import_: Importing, entries: seq<string>,
                                           seeds: seq<Seed>, now: Time)
    requires BookOk(book, canon) && Idempotent(canon) && app < |book.apps| && |seeds| == |entries|
    requires ImportAll(book, canon, app, import_, entries, seeds, now).Success?
    ensures BookOk(ImportAll(book, canon, app, import_, entries, seeds, now).value.0, canon)
    decreases |entries|
  {
    if entries != [] {
      var n := |entries| - 1;
      ImportKeepsBook(book, canon, app, import_, entries[..n], seeds[..n], now);
      var before := ImportAll(book, canon, app, import_, entries[..n], seeds[..n], now).value.0;
      ImportOneKeeps(before, canon, app, import_, entries[n], seeds[n], now);
    }
  }

  // --- importing again -----------------------------------------------------------------------------------

  /** Nothing is left to import of an entry: it cannot be, it is claimed already, or a limit is reached. */
  ghost predicate Done(book: Book, canon: Gateway.Canon, app: nat, import_: Importing, entry: string)
    requires app < |book.apps|
  {
    var canonical := canon(entry);
    || canonical.None? || ReferenceFor(import_, entry, canonical.value) == ""
    || LimitReached(book, app) || Taken(book.rows, canonical.value)
  }

  lemma DoneImportsNothing(book: Book, canon: Gateway.Canon, app: nat, import_: Importing, entry: string, seed: Seed, now: Time)
    requires app < |book.apps| && Idempotent(canon) && Done(book, canon, app, import_, entry)
    ensures var one := ImportOne(book, canon, app, import_, entry, seed, now);
      one.Success? ==> one.value.0 == book && !one.value.1.WasImported?
  {
  }

  lemma ImportOneFinishes(book: Book, canon: Gateway.Canon, app: nat, import_: Importing, entry: string, seed: Seed, now: Time,
                          other: string)
    requires BookOk(book, canon) && Idempotent(canon) && app < |book.apps|
    requires ImportOne(book, canon, app, import_, entry, seed, now).Success?
    ensures var after := ImportOne(book, canon, app, import_, entry, seed, now).value.0;
      && after.apps == book.apps && after.limit == book.limit
      && Done(after, canon, app, import_, entry)
      && (Done(book, canon, app, import_, other) ==> Done(after, canon, app, import_, other))
  {
    var one := ImportOne(book, canon, app, import_, entry, seed, now).value;
    if one.1.WasImported? {
      var row := ImportedRow(book, canon, app, import_, entry, seed, now);
      LiveCountGrows(book.rows, row, Some(app));
      LiveCountGrows(book.rows, row, None);
      assert row in one.0.rows;
      assert forall r | r in book.rows :: r in one.0.rows;
    }
  }

  lemma ImportAllStep(book: Book, canon: Gateway.Canon, app: nat, import_: Importing, entries: seq<string>, seeds: seq<Seed>, now: Time)
    requires app < |book.apps| && |seeds| == |entries| && entries != []
    requires ImportAll(book, canon, app, import_, entries, seeds, now).Success?
    ensures var n := |entries| - 1;
      var before := ImportAll(book, canon, app, import_, entries[..n], seeds[..n], now);
      && before.Success? && app < |before.value.0.apps|
      && var one := ImportOne(before.value.0, canon, app, import_, entries[n], seeds[n], now);
      one.Success? && ImportAll(book, canon, app, import_, entries, seeds, now).value.0 == one.value.0
  {
  }

  lemma OneMoreFinishes(before: Book, canon: Gateway.Canon, app: nat, import_: Importing, entry: string, seed: Seed, now: Time,
                        other: string)
    requires BookOk(before, canon) && Idempotent(canon) && app < |before.apps|
    requires ImportOne(before, canon, app, import_, entry, seed, now).Success?
    requires other == entry || Done(before, canon, app, import_, other)
    ensures var after := ImportOne(before, canon, app, import_, entry, seed, now).value.0;
      app < |after.apps| && Done(after, canon, app, import_, other)
  {
    ImportOneFinishes(before, canon, app, import_, entry, seed, now, other);
  }

  lemma {:induction false} ImportFinishes(book: Book, canon: Gateway.Canon, app: nat, import_: Importing, entries: seq<string>,
                                          seeds: seq<Seed>, now: Time, k: nat)
    requires BookOk(book, canon) && Idempotent(canon) && app < |book.apps| && |seeds| == |entries| && k < |entries|
    requires ImportAll(book, canon, app, import_, entries, seeds, now).Success?
    ensures Done(ImportAll(book, canon, app, import_, entries, seeds, now).value.0, canon, app, import_, entries[k])
    decreases |entries|
  {
    var n := |entries| - 1;
    ImportAllStep(book, canon, app, import_, entries, seeds, now);
    var before := ImportAll(book, canon, app, import_, entries[..n], seeds[..n], now).value.0;
    ImportKeepsBook(book, canon, app, import_, entries[..n], seeds[..n], now);
    if k < n {
      ImportFinishes(book, canon, app, import_, entries[..n], seeds[..n], now, k);
      assert entries[..n][k] == entries[k];
    }
    OneMoreFinishes(before, canon, app, import_, entries[n], seeds[n], now, entries[k]);
  }

  lemma {:induction false} DoneImportChangesNothing(book: Book, canon: Gateway.Canon, app: nat, import_: Importing,
                                                    entries: seq<string>, seeds: seq<Seed>, now: Time)
    requires Idempotent(canon) && app < |book.apps| && |seeds| == |entries|
    requires forall k | 0 <= k < |entries| :: Done(book, canon, app, import_, entries[k])
    requires ImportAll(book, canon, app, import_, entries, seeds, now).Success?
    ensures var imported := ImportAll(book, canon, app, import_, entries, seeds, now).value;
      imported.0 == book && forall fate | fate in imported.1 :: !fate.WasImported?
    decreases |entries|
  {
    if entries != [] {
      var n := |entries| - 1;
      DoneImportChangesNothing(book, canon, app, import_, entries[..n], seeds[..n], now);
      DoneImportsNothing(book, canon, app, import_, entries[n], seeds[n], now);
    }
  }

  /** Importing the same entries again is safe: it changes nothing. */
  lemma ImportingAgainChangesNothing(book: Book, canon: Gateway.Canon, app: nat, import_: Importing, entries: seq<string>,
                                     seeds: seq<Seed>, now: Time, again: seq<Seed>, later: Time)
    requires BookOk(book, canon) && Idempotent(canon) && app < |book.apps| && |seeds| == |entries| == |again|
    requires ImportAll(book, canon, app, import_, entries, seeds, now).Success?
    ensures var first := ImportAll(book, canon, app, import_, entries, seeds, now).value.0;
      var second := ImportAll(first, canon, app, import_, entries, again, later);
      second.Success? ==> second.value.0 == first && forall fate | fate in second.value.1 :: !fate.WasImported?
  {
    var first := ImportAll(book, canon, app, import_, entries, seeds, now).value.0;
    forall k | 0 <= k < |entries|
      ensures Done(first, canon, app, import_, entries[k])
    {
      ImportFinishes(book, canon, app, import_, entries, seeds, now, k);
    }
    if ImportAll(first, canon, app, import_, entries, again, later).Success? {
      DoneImportChangesNothing(first, canon, app, import_, entries, again, later);
    }
  }

  // --- runs ------------------------------------------------------------------------------------------------

  datatype Action =
    | Register(app: nat, hostname: string, reference: string, seed: Seed, now: Time)
    | Import(app: nat, import_: Importing, entries: seq<string>, seeds: seq<Seed>, now: Time)
    | Change(i: nat, row: Row)
    | SetApp(app: nat, settings: App)
    | SetLimit(limit: Option<nat>)

  /** What any other call and the worker do to a row: they keep its name and owner, and no tombstone comes back. */
  predicate Evolves(before: Row, after: Row) {
    && after.hostname == before.hostname && after.applicationId == before.applicationId
    && (before.deletedAt.Some? ==> after.deletedAt.Some?)
  }

  function Step(book: Book, canon: Gateway.Canon, a: Action): Book {
    match a
    case Register(app, hostname, reference, seed, now) =>
      if app >= |book.apps| then book
      else
        var claimed := Claimed(book, canon, app, hostname, reference, seed, now);
        if claimed.Success? then claimed.value else book
    case Import(app, import_, entries, seeds, now) =>
      if app >= |book.apps| || |seeds| != |entries| then book
      else
        var imported := ImportAll(book, canon, app, import_, entries, seeds, now);
        if imported.Success? then imported.value.0 else book
    case Change(i, row) =>
      if i < |book.rows| && Evolves(book.rows[i], row) then book.(rows := book.rows[i := row]) else book
    case SetApp(app, settings) => if app < |book.apps| then book.(apps := book.apps[app := settings]) else book
    case SetLimit(limit) => book.(limit := limit)
  }

  function Run(apps: seq<App>, limit: Option<nat>, canon: Gateway.Canon, actions: seq<Action>): Book {
    if actions == [] then Book(apps, limit, [], [])
    else Step(Run(apps, limit, canon, actions[..|actions| - 1]), canon, actions[|actions| - 1])
  }

  /**
   * Over all registrations, imports and other changes: a hostname has at most one live row across all
   * applications, its name is canonical, and no application registers more than 120 in any hour.
   */
  lemma {:induction false} OneLiveRowPerHostname(apps: seq<App>, limit: Option<nat>, canon: Gateway.Canon, actions: seq<Action>)
    requires Idempotent(canon)
    ensures BookOk(Run(apps, limit, canon, actions), canon)
  {
    if actions != [] {
      var book, a := Run(apps, limit, canon, actions[..|actions| - 1]), actions[|actions| - 1];
      OneLiveRowPerHostname(apps, limit, canon, actions[..|actions| - 1]);
      match a {
        case Register(app, hostname, reference, seed, now) =>
          if app < |book.apps| && Claimed(book, canon, app, hostname, reference, seed, now).Success? {
            ClaimKeeps(book, canon, app, hostname, reference, seed, now);
          }
        case Import(app, import_, entries, seeds, now) =>
          if app < |book.apps| && |seeds| == |entries| && ImportAll(book, canon, app, import_, entries, seeds, now).Success? {
            ImportKeepsBook(book, canon, app, import_, entries, seeds, now);
          }
        case Change(i, row) =>
          if i < |book.rows| && Evolves(book.rows[i], row) {
            ChangeKeeps(book, canon, i, row);
          }
        case _ =>
      }
    }
  }

  lemma ChangeKeeps(book: Book, canon: Gateway.Canon, i: nat, row: Row)
    requires BookOk(book, canon) && i < |book.rows| && Evolves(book.rows[i], row)
    ensures BookOk(book.(rows := book.rows[i := row]), canon)
  {
  }
}
