/** When a registration or an imported entry goes through, counted over the rows and events themselves (`app/services/domains.py`). */
module Admission {
  import opened Wrappers
  import opened Domains
  import opened DnsChecks
  import opened Registry
  import Gateway

  // --- counting ----------------------------------------------------------------------------------------

  ghost predicate LiveOf(row: Row, app: Option<nat>) {
    row.deletedAt.None? && (app.None? || row.applicationId == app.value)
  }

  /** The places of the live rows, of one application or of all. */
  ghost function LiveRows(rows: seq<Row>, app: Option<nat>): set<nat> {
    set i: nat | i < |rows| && LiveOf(rows[i], app)
  }

  lemma {:induction false} LiveCountIs(rows: seq<Row>, app: Option<nat>)
    ensures LiveCount(rows, app) == |LiveRows(rows, app)|
  {
    if rows != [] {
      var n: nat := |rows| - 1;
      LiveCountIs(rows[..n], app);
      assert LiveRows(rows, app) == LiveRows(rows[..n], app) + if LiveOf(rows[n], app) then {n} else {};
    }
  }

  ghost predicate Full(book: Book, app: nat)
    requires app < |book.apps|
  {
    || (book.apps[app].maxDomains.Some? && |LiveRows(book.rows, Some(app))| >= book.apps[app].maxDomains.value)
    || (book.limit.Some? && |LiveRows(book.rows, None)| >= book.limit.value)
  }

  /** The places of an application's registrations in the hour before `now`. */
  ghost function LastHour(created: seq<Creation>, app: nat, now: Time): set<nat> {
    set i: nat | i < |created| && created[i].app == app && created[i].at > now - 60 * MINUTE
  }

  lemma {:induction false} RecentCount(created: seq<Creation>, app: nat, now: Time)
    ensures |Recent(created, app, now - REGISTRATION_WINDOW)| == |LastHour(created, app, now)|
  {
    if created != [] {
      var n: nat := |created| - 1;
      RecentCount(created[..n], app, now);
      var counts := created[n].app == app && created[n].at > now - 60 * MINUTE;
      assert LastHour(created, app, now) == LastHour(created[..n], app, now) + if counts then {n} else {};
    }
  }

  lemma {:induction false} RecentListed(created: seq<Creation>, app: nat, now: Time, i: nat)
    requires i in LastHour(created, app, now)
    ensures created[i].at in Recent(created, app, now - REGISTRATION_WINDOW)
  {
    var n := |created| - 1;
    if i < n {
      RecentListed(created[..n], app, now, i);
    }
  }

  lemma {:induction false} RecentFrom(created: seq<Creation>, app: nat, now: Time, t: Time) returns (i: nat)
    requires t in Recent(created, app, now - REGISTRATION_WINDOW)
    ensures i in LastHour(created, app, now) && created[i].at == t
  {
    var n := |created| - 1;
    if t in Recent(created[..n], app, now - REGISTRATION_WINDOW) {
      i := RecentFrom(created[..n], app, now, t);
    } else {
      i := n;
    }
  }

  lemma {:induction false} EarliestIs(times: seq<Time>)
    requires times != []
    ensures Earliest(times) in times && forall t | t in times :: Earliest(times) <= t
  {
    if |times| > 1 {
      EarliestIs(times[1..]);
      assert forall t | t in times :: t == times[0] || t in times[1..];
    }
  }

  /** The least number of whole seconds after which fewer registrations count. */
  ghost predicate LeastWait(created: seq<Creation>, app: nat, now: Time, seconds: int) {
    && (exists i :: i in LastHour(created, app, now) && i !in LastHour(created, app, now + seconds * SECOND))
    && (forall i | i in LastHour(created, app, now) :: i in LastHour(created, app, now + (seconds - 1) * SECOND))
  }

  lemma RoundedUp(span: Time)
    ensures var seconds := (span + SECOND - 1) / SECOND;
      (seconds - 1) * SECOND < span <= seconds * SECOND
  {
  }

  lemma WaitIsLeast(created: seq<Creation>, app: nat, now: Time)
    requires LastHour(created, app, now) != {}
    ensures var recent := Recent(created, app, now - REGISTRATION_WINDOW);
      recent != [] && LeastWait(created, app, now, (Earliest(recent) + REGISTRATION_WINDOW - now + SECOND - 1) / SECOND)
  {
    RecentCount(created, app, now);
    var recent := Recent(created, app, now - REGISTRATION_WINDOW);
    EarliestIs(recent);
    var first := Earliest(recent);
    RoundedUp(first + REGISTRATION_WINDOW - now);
    var seconds := (first + REGISTRATION_WINDOW - now + SECOND - 1) / SECOND;
    var i := RecentFrom(created, app, now, first);
    assert i !in LastHour(created, app, now + seconds * SECOND);
    forall j | j in LastHour(created, app, now)
      ensures j in LastHour(created, app, now + (seconds - 1) * SECOND)
    {
      RecentListed(created, app, now, j);
    }
  }

  // --- registering ---------------------------------------------------------------------------------------

  lemma StripIsBlank(s: string)
    ensures Strip(s) == "" <==> Blank(s)
  {
    var before, after := StripTrims(s);
    if Strip(s) != "" {
      assert Strip(s)[0] in s;
    }
  }

  predicate UsableReference(reference: string) {
    |reference| <= 255 && exists c | c in reference :: !IsSpace(c)
  }

  ghost predicate ClaimedLive(rows: seq<Row>, hostname: string) {
    exists i: nat | i < |rows| :: rows[i].deletedAt.None? && rows[i].hostname == hostname
  }

  /** The first thing wrong with a registration, in the order they are looked for, or none. */
  ghost predicate Refused(error: ClaimError, book: Book, canon: Gateway.Canon, app: nat, hostname: string, reference: string,
                          now: Time)
    requires app < |book.apps|
  {
    match error
    case ApplicationSuspended => !book.apps[app].active
    case InvalidReference => book.apps[app].active && !UsableReference(reference)
    case InvalidHostname => book.apps[app].active && UsableReference(reference) && canon(hostname).None?
    case DomainLimitReached => Proper(book, canon, app, hostname, reference) && Full(book, app)
    case TooManyRegistrations(seconds) =>
      && Proper(book, canon, app, hostname, reference) && !Full(book, app)
      && |LastHour(book.created, app, now)| >= 120 && LeastWait(book.created, app, now, seconds)
    case HostnameAlreadyClaimed =>
      && Proper(book, canon, app, hostname, reference) && !Full(book, app) && |LastHour(book.created, app, now)| < 120
      && ClaimedLive(book.rows, canon(hostname).value)
  }

  ghost predicate Proper(book: Book, canon: Gateway.Canon, app: nat, hostname: string, reference: string)
    requires app < |book.apps|
  {
    book.apps[app].active && UsableReference(reference) && canon(hostname).Some?
  }

  ghost predicate Admitted(book: Book, canon: Gateway.Canon, app: nat, hostname: string, reference: string, now: Time)
    requires app < |book.apps|
  {
    && Proper(book, canon, app, hostname, reference) && !Full(book, app) && |LastHour(book.created, app, now)| < 120
    && !ClaimedLive(book.rows, canon(hostname).value)
  }

  lemma TakenIs(rows: seq<Row>, hostname: string)
    ensures Taken(rows, hostname) <==> ClaimedLive(rows, hostname)
  {
    if Taken(rows, hostname) {
      var row :| row in rows && row.deletedAt.None? && row.hostname == hostname;
      var i: nat :| i < |rows| && rows[i] == row;
    }
  }

  lemma LimitIs(book: Book, app: nat)
    requires app < |book.apps|
    ensures LimitReached(book, app) <==> Full(book, app)
  {
    LiveCountIs(book.rows, Some(app));
    LiveCountIs(book.rows, None);
  }

  /** A registration goes through exactly when nothing is wrong with it, and is otherwise told the first thing that is. */
  lemma ClaimsGoThroughExactly(book: Book, canon: Gateway.Canon, app: nat, hostname: string, reference: string, now: Time)
    requires app < |book.apps|
    ensures var checked := ClaimCheck(book, canon, app, hostname, reference, now);
      && (checked.Success? <==> Admitted(book, canon, app, hostname, reference, now))
      && (checked.Success? ==> Some(checked.value) == canon(hostname))
      && (checked.Failure? ==> Refused(checked.error, book, canon, app, hostname, reference, now))
  {
    LimitIs(book, app);
    RecentCount(book.created, app, now);
    if |LastHour(book.created, app, now)| >= 120 {
      WaitIsLeast(book.created, app, now);
    }
    StripIsBlank(reference);
    if canon(hostname).Some? {
      TakenIs(book.rows, canon(hostname).value);
    }
  }

  // --- importing -----------------------------------------------------------------------------------------

  /** The reference of an entry: what the mapping has for its canonical name, else for the entry as written, else maybe the name. */
  ghost predicate ReferenceIs(import_: Importing, entry: string, canonical: string, reference: string) {
    if Known(import_, canonical, reference) then true
    else if Unknown(import_, canonical) && Known(import_, entry, reference) then true
    else Unknown(import_, canonical) && Unknown(import_, entry) && reference == if import_.hostnameAsReference then canonical else ""
  }

  ghost predicate Unknown(import_: Importing, name: string) {
    name !in import_.references || import_.references[name] == ""
  }

  ghost predicate Known(import_: Importing, name: string, reference: string) {
    !Unknown(import_, name) && import_.references[name] == reference
  }

  lemma ReferenceForIs(import_: Importing, entry: string, canonical: string)
    ensures ReferenceIs(import_, entry, canonical, ReferenceFor(import_, entry, canonical))
  {
  }

  ghost predicate ClaimedBy(rows: seq<Row>, hostname: string, app: nat) {
    exists i: nat | i < |rows| :: rows[i].deletedAt.None? && rows[i].hostname == hostname && rows[i].applicationId == app
  }

  lemma OwnedIs(rows: seq<Row>, hostname: string, app: nat)
    ensures OwnedBy(rows, hostname, app) <==> ClaimedBy(rows, hostname, app)
  {
    if OwnedBy(rows, hostname, app) {
      var row :| row in rows && row.deletedAt.None? && row.hostname == hostname && row.applicationId == app;
      var i: nat :| i < |rows| && rows[i] == row;
    }
  }

  /** What becomes of an entry of an import. */
  ghost predicate FateSays(fate: Fate, book: Book, canon: Gateway.Canon, app: nat, import_: Importing, entry: string, now: Time)
    requires app < |book.apps|
  {
    var name := canon(entry);
    if name.None? then fate == WasSkipped(BadHostname)
    else
      var reference := ReferenceFor(import_, entry, name.value);
      if reference == "" then fate == WasSkipped(MissingReference)
      else
        && book.apps[app].active && UsableReference(reference)
        && (fate == WasSkipped(NoRoom) <==> Full(book, app))
        && (fate == WasImported <==> Admitted(book, canon, app, name.value, reference, now))
        && (fate == WasExisting <==> !Full(book, app) && ClaimedBy(book.rows, name.value, app))
        && (fate == WasSkipped(ClaimedElsewhere) <==>
              !Full(book, app) && ClaimedLive(book.rows, name.value) && !ClaimedBy(book.rows, name.value, app))
  }

  /** Each entry's fate, and the errors that end an import: a suspended application, a bad reference, or too many in the hour. */
  lemma FatesAre(book: Book, canon: Gateway.Canon, app: nat, import_: Importing, entry: string, seed: Seed, now: Time)
    requires Idempotent(canon) && app < |book.apps|
    ensures var one := ImportOne(book, canon, app, import_, entry, seed, now);
      && (one.Success? ==> FateSays(one.value.1, book, canon, app, import_, entry, now))
      && (one.Failure? ==>
            && canon(entry).Some? && !one.error.DomainLimitReached? && !one.error.HostnameAlreadyClaimed?
            && Refused(one.error, book, canon, app, canon(entry).value, ReferenceFor(import_, entry, canon(entry).value), now))
  {
    if canon(entry).Some? {
      var name := canon(entry).value;
      ClaimsGoThroughExactly(book, canon, app, name, ReferenceFor(import_, entry, name), now);
      OwnedIs(book.rows, name, app);
    }
  }
}
