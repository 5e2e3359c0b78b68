/**
 * What holds of a domain after any interleaving of workers, re-issues, rechecks, returns from
 * Domain Connect and deletions: whose claim each check speaks for, what a verified claim rests
 * on, and what the stored failure counts mean.
 */
module Interleaving {
  import opened Wrappers
  import opened Domains
  import opened Resolver
  import opened DnsChecks
  import opened EdgeChecks
  import opened Lifecycle
  import opened Worker

  // --- reading the history ---------------------------------------------------------------------

  datatype Word =
    | NeverSeen
    | ResetByReissue
    | SeenByImport(version: Version)
    | SeenByCheck(at: Time, version: Version, passed: bool)

  function Says(entry: Entry, check: CheckType): Option<Word> {
    match entry
    case DnsSeen(at, version, _, _, ownership, routing) =>
      if check.Ownership? then Some(SeenByCheck(at, version, ownership.Passes()))
      else if check.Routing? then Some(SeenByCheck(at, version, routing.Passes()))
      else None
    case EdgeSeen(at, version, certificate, origin) =>
      if check.Certificate? then Some(SeenByCheck(at, version, certificate.Passes()))
      else if check.Origin? then Some(SeenByCheck(at, version, origin.Passes()))
      else None
    case ImportSeen(_, version) => if check.Ownership? then Some(SeenByImport(version)) else None
    case Reissued(_) => Some(ResetByReissue)
  }

  /** The last thing that happened to a check. */
  function LastWord(log: seq<Entry>, check: CheckType): Word {
    if log == [] then NeverSeen
    else
      var said := Says(log[|log| - 1], check);
      if said.Some? then said.value else LastWord(log[..|log| - 1], check)
  }

  /** A check's failing observations since it last passed, was imported or was reset. */
  function Failures(log: seq<Entry>, check: CheckType): seq<Entry> {
    if log == [] then []
    else
      var before := Failures(log[..|log| - 1], check);
      var said := Says(log[|log| - 1], check);
      if said.None? then before
      else if said.value.SeenByCheck? && !said.value.passed then before + [log[|log| - 1]]
      else []
  }

  predicate SpeaksFor(entry: Entry, version: Option<Version>) {
    (entry.DnsSeen? || entry.EdgeSeen?) && Some(entry.version) == version
  }

  /** The check says what was last seen of it, and that was seen against the live claim. */
  ghost predicate Backed(row: Row, log: seq<Entry>, check: CheckType) {
    var stored := row.checks.Get(check);
    var word := LastWord(log, check);
    && stored.Some?
    && match stored.value.status
       case Pending => word.NeverSeen? || word.ResetByReissue?
       case Passing =>
         || (word.SeenByCheck? && word.passed && Some(word.version) == ClaimVersion(row)
             && stored.value.observedAt == Some(word.at))
         || (check.Ownership? && word.SeenByImport? && Some(word.version) == ClaimVersion(row))
       case Failing =>
         word.SeenByCheck? && !word.passed && Some(word.version) == ClaimVersion(row)
         && stored.value.observedAt == Some(word.at)
  }

  /** The stored count and first failure are those of the failing suffix, all of one claim. */
  ghost predicate StreakStored(row: Row, log: seq<Entry>, check: CheckType) {
    var stored := row.checks.Get(check);
    var failures := Failures(log, check);
    && stored.Some?
    && stored.value.attempts == |failures|
    && stored.value.failingSince == (if failures == [] then None else Some(failures[0].at))
    && (forall e | e in failures :: SpeaksFor(e, ClaimVersion(row)))
  }

  ghost predicate VerifiedThroughout(row: Row, log: seq<Entry>) {
    HasVerifiedClaim(row) ==> forall e | e in Failures(log, Ownership) :: e.DnsSeen? && e.verified
  }

  /** One DNS pass saw the claim's own token and a chain through the claim's own target. */
  predicate ProvesClaim(entry: Entry, claim: Claim) {
    entry.DnsSeen? && entry.version == VersionOf(claim) && entry.ownership.Passes() && entry.routing.Passes()
  }

  ghost predicate DnsShows(entry: Entry, hostname: string, claim: Claim) {
    entry.DnsSeen?
    && ShowsToken(entry.dns, hostname, claim.token)
    && Reaches(entry.dns, hostname, claim.cnameTarget)
  }

  ghost predicate Genuine(log: seq<Entry>, hostname: string, claim: Claim) {
    match claim.verifiedBy
    case None => !claim.status.ClaimVerified?
    case Some(DnsTxt) => exists e | e in log :: ProvesClaim(e, claim) && DnsShows(e, hostname, claim)
    case Some(LegacyImport) => exists e | e in log :: e.ImportSeen? && e.version == VersionOf(claim)
  }

  // --- the invariant -------------------------------------------------------------------------------

  ghost predicate CheckInv(row: Row, log: seq<Entry>, check: CheckType) {
    Backed(row, log, check) && StreakStored(row, log, check)
  }

  ghost predicate ChecksInv(row: Row, log: seq<Entry>) {
    && CheckInv(row, log, Ownership) && CheckInv(row, log, Routing)
    && CheckInv(row, log, Certificate) && CheckInv(row, log, Origin)
    && VerifiedThroughout(row, log)
  }

  ghost predicate HistoryInv(row: Row, log: seq<Entry>) {
    && (row.deletedAt.None? ==> ChecksInv(row, log))
    && ClaimsGenuine(row, log)
  }

  ghost predicate ClaimsGenuine(row: Row, log: seq<Entry>) {
    forall claim | claim in row.claims :: Genuine(log, row.hostname, claim)
  }

  /** `later` has every claim of `earlier`, in order, with its token and target. */
  ghost predicate Grown(earlier: Row, later: Row) {
    && earlier.hostname == later.hostname
    && |earlier.claims| <= |later.claims|
    && forall i | 0 <= i < |earlier.claims| :: VersionOf(earlier.claims[i]) == VersionOf(later.claims[i])
  }

  ghost predicate Held(seen: Row, row: Row) {
    RowInv(seen) && seen.deletedAt.None? && Grown(seen, row)
  }

  ghost predicate PhaseInv(phase: Phase, row: Row) {
    match phase
    case FoundDue(_, _) => true
    case Leased(_) => true
    case Loaded(seen, _) => Held(seen, row)
    case Queried(seen, _, _) => Held(seen, row)
    case DnsDone(seen, _) => Held(seen, row)
    case Probing(seen) => Held(seen, row)
    case Probed(seen, certificate, origin) =>
      Held(seen, row) && !certificate.status.Pending? && !origin.status.Pending?
  }

  ghost predicate Inv(s: State) {
    && RowInv(s.row)
    && HistoryInv(s.row, s.log)
    && forall w | w in s.workers :: PhaseInv(s.workers[w], s.row)
  }

  // --- small steps ------------------------------------------------------------------------------------

  /** Only the due times differ. */
  ghost predicate SameButDue(a: Option<Check>, b: Option<Check>) {
    a.Some? == b.Some? && (a.Some? ==> b.value == a.value.(nextCheckAt := b.value.nextCheckAt))
  }

  ghost predicate Rescheduled(before: Row, after: Row) {
    && after == before.(checks := after.checks)
    && SameButDue(before.checks.ownership, after.checks.ownership)
    && SameButDue(before.checks.routing, after.checks.routing)
    && SameButDue(before.checks.certificate, after.checks.certificate)
    && SameButDue(before.checks.origin, after.checks.origin)
  }

  lemma RescheduledKeeps(before: Row, after: Row, log: seq<Entry>)
    requires RowInv(before) && HistoryInv(before, log) && Rescheduled(before, after)
    ensures RowInv(after) && HistoryInv(after, log)
  {
  }

  lemma PhasesFollow(s: State, row: Row)
    requires forall w | w in s.workers :: PhaseInv(s.workers[w], s.row)
    requires Grown(s.row, row)
    ensures forall w | w in s.workers :: PhaseInv(s.workers[w], row)
  {
  }

  lemma GrownTransitive(a: Row, b: Row, c: Row)
    requires Grown(a, b) && Grown(b, c)
    ensures Grown(a, c)
  {
  }

  /** The one entry a step adds decides what is said of each check from then on. */
  lemma EntryAppends(log: seq<Entry>, entry: Entry, check: CheckType)
    ensures var said := Says(entry, check);
      && LastWord(log + [entry], check) == (if said.Some? then said.value else LastWord(log, check))
      && Failures(log + [entry], check) == (
           if said.None? then Failures(log, check)
           else if said.value.SeenByCheck? && !said.value.passed then Failures(log, check) + [entry]
           else [])
  {
  }

  lemma GenuineStays(log: seq<Entry>, entry: Entry, hostname: string, claim: Claim)
    requires Genuine(log, hostname, claim)
    ensures Genuine(log + [entry], hostname, claim)
  {
  }

  /** A stored outcome of the right check, seen against the live claim, continues the history. */
  lemma CheckedInv(row: Row, log: seq<Entry>, after: Row, entry: Entry, check: CheckType, outcome: Outcome)
    requires CheckInv(row, log, check)
    requires ClaimVersion(after) == ClaimVersion(row) && ClaimVersion(row).Some?
    requires entry.DnsSeen? || entry.EdgeSeen?
    requires Some(entry.version) == ClaimVersion(row)
    requires Says(entry, check) == Some(SeenByCheck(entry.at, entry.version, outcome.Passes()))
    requires !outcome.status.Pending?
    requires var next := ScheduleNext(row.checks.Get(check), outcome, entry.at);
      && after.checks.Get(check).Some?
      && SameButDue(Some(StoredCheck(next, entry.at)), after.checks.Get(check))
    ensures CheckInv(after, log + [entry], check)
  {
  }

  lemma UncheckedInv(row: Row, log: seq<Entry>, after: Row, entry: Entry, check: CheckType)
    requires CheckInv(row, log, check)
    requires ClaimVersion(after) == ClaimVersion(row)
    requires Says(entry, check) == None
    requires SameButDue(row.checks.Get(check), after.checks.Get(check))
    ensures CheckInv(after, log + [entry], check)
  {
  }

  // --- steps ------------------------------------------------------------------------------------------

  lemma LeasesReschedule(row: Row, types: set<CheckType>, force: bool, now: Time)
    ensures Rescheduled(row, row.(checks := LeaseChecks(row.checks, types, force, now)))
  {
  }

  /** Both outcomes of a pass continue the history of all four checks. */
  lemma DnsChecksHistory(row: Row, log: seq<Entry>, after: Row, entry: Entry, fast: bool)
    requires ChecksInv(row, log) && entry.DnsSeen?
    requires !entry.ownership.status.Pending? && !entry.routing.status.Pending?
    requires ClaimVersion(row) == Some(entry.version) == ClaimVersion(after)
    requires entry.verified == HasVerifiedClaim(row)
    requires HasVerifiedClaim(after) ==> HasVerifiedClaim(row) || entry.ownership.Passes()
    requires after.checks == row.checks.(
      ownership := Some(StoredCheck(DnsObservation(row, Ownership, entry.ownership, fast, entry.at), entry.at)),
      routing := Some(StoredCheck(DnsObservation(row, Routing, entry.routing, fast, entry.at), entry.at)))
    ensures ChecksInv(after, log + [entry])
  {
  }

  /** Verifying the live claim changes neither its version nor any other claim. */
  lemma VerifyingKeepsVersion(row: Row, after: Row, verifies: bool)
    requires ClaimsOk(row) && row.deletedAt.None? && after.hostname == row.hostname
    requires after.claims == if verifies then VerifiedLast(row.claims, DnsTxt) else row.claims
    ensures ClaimVersion(row).Some? && ClaimVersion(after) == ClaimVersion(row) && Grown(row, after)
    ensures HasVerifiedClaim(after) <==> verifies || HasVerifiedClaim(row)
    ensures ClaimVersion(row) == Some(VersionOf(after.claims[|after.claims| - 1]))
    ensures ActiveClaim(row) == Some(row.claims[|row.claims| - 1])
  {
    LiveIndexIs(row.claims, |row.claims| - 1);
    LiveIndexIs(after.claims, |row.claims| - 1);
  }

  /** What applying a pass leaves, whatever the steps in between: the row `after`. */
  lemma AppliedHistory(row: Row, log: seq<Entry>, after: Row, entry: Entry, fast: bool)
    requires RowInv(row) && ChecksInv(row, log) && ClaimsGenuine(row, log) && row.deletedAt.None?
    requires entry.DnsSeen? && !entry.ownership.status.Pending? && !entry.routing.status.Pending?
    requires ActiveClaim(row).Some? && Some(entry.version) == ClaimVersion(row) && entry.verified == HasVerifiedClaim(row)
    requires entry.ownership.Passes() ==> ShowsToken(entry.dns, row.hostname, ActiveClaim(row).value.token)
    requires entry.routing.Passes() ==> Reaches(entry.dns, row.hostname, ActiveClaim(row).value.cnameTarget)
    requires after.hostname == row.hostname
    requires after.claims == (
      if entry.ownership.Passes() && entry.routing.Passes() && ActiveClaim(row).value.status.ClaimPending?
      then VerifiedLast(row.claims, DnsTxt) else row.claims)
    requires after.checks == row.checks.(
      ownership := Some(StoredCheck(DnsObservation(row, Ownership, entry.ownership, fast, entry.at), entry.at)),
      routing := Some(StoredCheck(DnsObservation(row, Routing, entry.routing, fast, entry.at), entry.at)))
    ensures Grown(row, after) && HistoryInv(after, log + [entry])
  {
    var verifies := entry.ownership.Passes() && entry.routing.Passes() && ActiveClaim(row).value.status.ClaimPending?;
    VerifyingKeepsVersion(row, after, verifies);
    DnsChecksHistory(row, log, after, entry, fast);
    DnsAppliedGenuine(row, log, after.claims, entry);
  }

  /** A pass applied to the live row it was made for keeps every part of the history. */
  lemma DnsAppliedHistory(row: Row, log: seq<Entry>, dns: Resolver, ownership: Outcome, routing: Outcome, fast: bool, now: Time)
    requires RowInv(row) && ChecksInv(row, log) && ClaimsGenuine(row, log) && row.deletedAt.None?
    requires !ownership.status.Pending? && !routing.status.Pending?
    requires ActiveClaim(row).Some?
    requires ownership.Passes() ==> ShowsToken(dns, row.hostname, ActiveClaim(row).value.token)
    requires routing.Passes() ==> Reaches(dns, row.hostname, ActiveClaim(row).value.cnameTarget)
    ensures var applied := ApplyDns(row, ownership, routing, fast, now);
      && applied.Success?
      && ClaimVersion(row).Some?
      && var entry := DnsSeen(now, ClaimVersion(row).value, HasVerifiedClaim(row), dns, ownership, routing);
      && RowInv(applied.value) && applied.value.deletedAt.None? && Grown(row, applied.value)
      && HistoryInv(applied.value, log + [entry])
  {
    ApplyDnsKeeps(row, ownership, routing, fast, now);
    var entry := DnsSeen(now, ClaimVersion(row).value, HasVerifiedClaim(row), dns, ownership, routing);
    AppliedHistory(row, log, ApplyDns(row, ownership, routing, fast, now).value, entry, fast);
  }

  /** The only claim a pass verifies is the live one it saw the records of. */
  lemma DnsAppliedGenuine(row: Row, log: seq<Entry>, claims: seq<Claim>, entry: Entry)
    requires ClaimsGenuine(row, log) && row.claims != []
    requires claims == row.claims || (
      && claims == VerifiedLast(row.claims, DnsTxt)
      && ProvesClaim(entry, claims[|claims| - 1])
      && DnsShows(entry, row.hostname, claims[|claims| - 1]))
    ensures forall claim | claim in claims :: Genuine(log + [entry], row.hostname, claim)
  {
    forall claim | claim in claims
      ensures Genuine(log + [entry], row.hostname, claim)
    {
      var i :| 0 <= i < |claims| && claims[i] == claim;
      GenuineStays(log, entry, row.hostname, row.claims[i]);
      assert entry in log + [entry];
    }
  }

  lemma AfterDnsKeeps(applied: Row, log: seq<Entry>, follow: bool, now: Time)
    requires RowInv(applied) && HistoryInv(applied, log)
    ensures var after := AfterDns(applied, follow, now);
      RowInv(after) && HistoryInv(after, log) && Grown(applied, after) && after.deletedAt == applied.deletedAt
  {
  }

  lemma ApplyPassKeeps(row: Row, log: seq<Entry>, phase: Phase, fast: bool, now: Time)
    requires RowInv(row) && HistoryInv(row, log) && row.deletedAt.None?
    requires phase.Queried? && Held(phase.seen, row) && ClaimVersion(row) == ClaimVersion(phase.seen)
    ensures var result := ApplyPass(row, phase, fast, now);
      && result.Success?
      && RowInv(result.value.row) && result.value.row.deletedAt.None? && Grown(row, result.value.row)
      && HistoryInv(result.value.row, log + [result.value.entry])
  {
    var ownership, routing := OwnershipOutcome(phase.dns, phase.seen), RoutingOutcome(phase.dns, phase.seen);
    assert ClaimVersion(phase.seen).Some?;
    DnsOutcomesMean(phase.dns, phase.seen);
    DnsAppliedHistory(row, log, phase.dns, ownership, routing, fast, now);
    var result := ApplyPass(row, phase, fast, now).value;
    var applied := ApplyDns(row, ownership, routing, fast, now).value;
    var follow := result.edgeDue && phase.types * EDGE_TYPES == {};
    AfterDnsKeeps(applied, log + [result.entry], follow, now);
    GrownTransitive(row, applied, result.row);
  }

  /** A row that has grown and the entry that accounts for it keep the invariant. */
  lemma GrownInv(s: State, row: Row, entry: Entry)
    requires Inv(s) && RowInv(row) && Grown(s.row, row) && HistoryInv(row, s.log + [entry])
    ensures Inv(s.(row := row, log := s.log + [entry]))
  {
    PhasesFollow(s, row);
  }

  lemma AppliedInv(s: State, worker: nat, phase: Phase, fast: bool, now: Time)
    requires Inv(s) && phase.Queried? && PhaseInv(phase, s.row) && s.row.deletedAt.None?
    requires ClaimVersion(s.row) == ClaimVersion(phase.seen)
    ensures ApplyPass(s.row, phase, fast, now).Success?
    ensures var applied := ApplyPass(s.row, phase, fast, now).value;
      Inv(Enter(s.(row := applied.row, log := s.log + [applied.entry]), worker, DnsDone(applied.row, applied.edgeDue)))
  {
    ApplyPassKeeps(s.row, s.log, phase, fast, now);
    var applied := ApplyPass(s.row, phase, fast, now).value;
    GrownInv(s, applied.row, applied.entry);
    EnterInv(s.(row := applied.row, log := s.log + [applied.entry]), worker, DnsDone(applied.row, applied.edgeDue));
  }

  /** Moving due times disturbs nothing. */
  lemma RescheduledInv(s: State, row: Row)
    requires Inv(s) && Rescheduled(s.row, row)
    ensures Inv(s.(row := row))
  {
    RescheduledKeeps(s.row, row, s.log);
    PhasesFollow(s, row);
  }

  lemma DiscardedInv(s: State, worker: nat, now: Time)
    requires Inv(s)
    ensures var due := s.row.checks.(ownership := Checks.DueAt(s.row.checks.ownership, now),
                                     routing := Checks.DueAt(s.row.checks.routing, now));
      Inv(Leave(s.(row := s.row.(checks := due)), worker))
  {
    var due := s.row.checks.(ownership := Checks.DueAt(s.row.checks.ownership, now),
                             routing := Checks.DueAt(s.row.checks.routing, now));
    RescheduledInv(s, s.row.(checks := due));
  }

  lemma CommitDnsInv(s: State, worker: nat, phase: Phase, fast: bool, now: Time)
    requires Inv(s) && phase.Queried? && PhaseInv(phase, s.row)
    ensures Inv(DoCommitDns(s, worker, phase, fast, now))
  {
    if s.row.deletedAt.Some? || s.row.status.Deleting? {
      LeaveInv(s, worker);
    } else if ClaimVersion(s.row) != ClaimVersion(phase.seen) {
      DiscardedInv(s, worker, now);
    } else {
      AppliedInv(s, worker, phase, fast, now);
    }
  }

  lemma EdgeAppliedHistory(row: Row, log: seq<Entry>, certificate: Outcome, origin: Outcome, now: Time)
    requires RowInv(row) && HistoryInv(row, log) && CertificateAuthorized(row, true)
    requires !certificate.status.Pending? && !origin.status.Pending?
    ensures var applied := ApplyEdge(row, certificate, origin, now);
      && applied.Success? && RowInv(applied.value) && Grown(row, applied.value)
      && ClaimVersion(row).Some?
      && HistoryInv(applied.value, log + [EdgeSeen(now, ClaimVersion(row).value, certificate, origin)])
  {
    ApplyEdgeKeeps(row, certificate, origin, now);
    var after := ApplyEdge(row, certificate, origin, now).value;
    assert ActiveClaim(after) == ActiveClaim(row);
    var entry := EdgeSeen(now, ClaimVersion(row).value, certificate, origin);
    UncheckedInv(row, log, after, entry, Ownership);
    UncheckedInv(row, log, after, entry, Routing);
    CheckedInv(row, log, after, entry, Certificate, certificate);
    CheckedInv(row, log, after, entry, Origin, origin);
    EntryAppends(log, entry, Ownership);
    forall claim | claim in after.claims
      ensures Genuine(log + [entry], after.hostname, claim)
    {
      GenuineStays(log, entry, row.hostname, claim);
    }
  }

  lemma CommitEdgeInv(s: State, worker: nat, phase: Phase, now: Time)
    requires Inv(s) && phase.Probed? && PhaseInv(phase, s.row)
    ensures Inv(DoCommitEdge(s, worker, phase, now))
  {
    var row := s.row;
    if row.deletedAt.None? && CertificateAuthorized(row, s.ownerActive) {
      EdgeAppliedHistory(row, s.log, phase.certificate, phase.origin, now);
      var after, entry := ApplyEdge(row, phase.certificate, phase.origin, now).value,
                          EdgeSeen(now, ClaimVersion(row).value, phase.certificate, phase.origin);
      GrownInv(s, after, entry);
      LeaveInv(s.(row := after, log := s.log + [entry]), worker);
    }
    LeaveInv(s, worker);
  }

  lemma ReissuedGenuine(row: Row, log: seq<Entry>, issued: Claim, now: Time)
    requires ClaimsGenuine(row, log) && issued.status.ClaimPending? && issued.verifiedBy.None?
    ensures forall claim | claim in AllRevoked(row.claims) + [issued] :: Genuine(log + [Reissued(now)], row.hostname, claim)
  {
    RevokedGenuine(row, log);
    forall claim | claim in AllRevoked(row.claims) + [issued]
      ensures Genuine(log + [Reissued(now)], row.hostname, claim)
    {
      if claim in AllRevoked(row.claims) {
        GenuineStays(log, Reissued(now), row.hostname, claim);
      }
    }
  }

  /** The history after a re-issue, for whatever row it left: `after`. */
  lemma ReissuedRowHistory(row: Row, log: seq<Entry>, after: Row, issued: Claim, now: Time)
    requires ClaimsGenuine(row, log) && issued.status.ClaimPending? && issued.verifiedBy.None?
    requires RowInv(after) && after.deletedAt.None? && after.hostname == row.hostname
    requires after.claims == AllRevoked(row.claims) + [issued]
    requires forall c: CheckType :: after.checks.Get(c) == Some(StoredCheck(RESET, now))
    ensures HistoryInv(after, log + [Reissued(now)])
  {
    var entry := Reissued(now);
    forall check: CheckType
      ensures CheckInv(after, log + [entry], check) && Failures(log + [entry], check) == []
    {
      assert after.checks.Get(check) == Some(StoredCheck(RESET, now));
      EntryAppends(log, entry, check);
    }
    ReissuedGenuine(row, log, issued, now);
  }

  /** A re-issue starts every check afresh and leaves old claims with what they rested on. */
  lemma ReissuedHistory(row: Row, log: seq<Entry>, seed: Seed, target: string, now: Time)
    requires RowInv(row) && HistoryInv(row, log) && row.deletedAt.None? && FreshId(row, seed.id)
    ensures var result := ReissueClaim(row, seed, target, now);
      && result.Success? && RowInv(result.value) && Grown(row, result.value)
      && HistoryInv(result.value, log + [Reissued(now)])
  {
    ReissueKeeps(row, seed, target, now);
    ReissuedRowHistory(row, log, ReissueClaim(row, seed, target, now).value,
                       Claim(seed.id, seed.token, target, ClaimPending, None), now);
  }

  lemma ReissueInv(s: State, seed: Seed, target: string, now: Time)
    requires Inv(s)
    ensures Inv(Step(s, Reissue(seed, target, now)))
  {
    if s.row.deletedAt.None? && FreshId(s.row, seed.id) {
      ReissuedHistory(s.row, s.log, seed, target, now);
      PhasesFollow(s, DoReissue(s, seed, target, now).row);
    }
  }

  lemma RevokedGenuine(row: Row, log: seq<Entry>)
    requires ClaimsGenuine(row, log)
    ensures forall claim | claim in AllRevoked(row.claims) :: Genuine(log, row.hostname, claim)
  {
    forall claim | claim in AllRevoked(row.claims)
      ensures Genuine(log, row.hostname, claim)
    {
      var i :| 0 <= i < |row.claims| && AllRevoked(row.claims)[i] == claim;
      assert Genuine(log, row.hostname, row.claims[i]);
    }
  }

  lemma DeletedHistory(row: Row, log: seq<Entry>, now: Time)
    requires RowInv(row) && ClaimsGenuine(row, log) && row.deletedAt.None?
    ensures var after := DeleteDomain(row, now);
      RowInv(after) && HistoryInv(after, log) && Grown(row, after)
  {
    DeleteKeeps(row, now);
    RevokedGenuine(row, log);
  }

  lemma DeleteInv(s: State, now: Time)
    requires Inv(s)
    ensures Inv(Step(s, Delete(now)))
  {
    if s.row.deletedAt.None? {
      DeletedHistory(s.row, s.log, now);
      PhasesFollow(s, DeleteDomain(s.row, now));
    }
  }

  lemma RecheckInv(s: State, budgetWait: Option<int>, now: Time)
    requires Inv(s)
    ensures Inv(Step(s, Recheck(budgetWait, now)))
  {
    if RequestRecheck(s.row, budgetWait, now).Success? {
      RecheckKeeps(s.row, budgetWait, now);
      var after := RequestRecheck(s.row, budgetWait, now).value;
      assert SameButDue(s.row.checks.ownership, after.checks.ownership);
      assert SameButDue(s.row.checks.routing, after.checks.routing);
      assert SameButDue(s.row.checks.certificate, after.checks.certificate);
      assert SameButDue(s.row.checks.origin, after.checks.origin);
      PhasesFollow(s, after);
    }
  }

  lemma TakeLeaseInv(s: State, worker: nat, types: set<CheckType>, now: Time)
    requires Inv(s)
    ensures Inv(DoTakeLease(s, worker, types, now))
  {
    LeasesReschedule(s.row, types, false, now);
    RescheduledInv(s, s.row.(checks := LeaseChecks(s.row.checks, types, false, now)));
  }

  lemma WorkerStepInv(s: State, a: Action, worker: nat)
    requires Inv(s) && worker in s.workers
    ensures Inv(WorkerStep(s, a, worker, s.workers[worker]))
  {
    assert PhaseInv(s.workers[worker], s.row);
    PhaseStepInv(s, a, worker, s.workers[worker]);
  }

  lemma PhaseStepInv(s: State, a: Action, worker: nat, phase: Phase)
    requires Inv(s) && PhaseInv(phase, s.row)
    ensures Inv(WorkerStep(s, a, worker, phase))
  {
    if a.TakeLease? && phase.FoundDue? {
      TakeLeaseInv(s, worker, phase.types, phase.now);
    } else if a.CommitDns? && phase.Queried? {
      CommitDnsInv(s, worker, phase, a.fast, a.now);
    } else if a.CommitEdge? && phase.Probed? {
      CommitEdgeInv(s, worker, phase, a.now);
    } else {
      OtherWorkerStepInv(s, a, worker, phase);
    }
  }

  lemma EnterInv(s: State, worker: nat, phase: Phase)
    requires Inv(s) && PhaseInv(phase, s.row)
    ensures Inv(Enter(s, worker, phase))
  {
  }

  lemma LeaveInv(s: State, worker: nat)
    requires Inv(s)
    ensures Inv(Leave(s, worker))
  {
  }

  lemma RereadInv(s: State, worker: nat, seen: Row, edgeDue: bool, refreshed: bool, ownerActive: bool)
    requires Inv(s) && Held(seen, s.row)
    ensures Inv(DoReread(s, worker, seen, edgeDue, refreshed, ownerActive))
  {
  }

  lemma LoadInv(s: State, worker: nat, types: set<CheckType>)
    requires Inv(s)
    ensures Inv(DoLoad(s, worker, types))
  {
  }

  lemma RereadStepInv(s: State, a: Action, worker: nat, phase: Phase)
    requires Inv(s) && PhaseInv(phase, s.row) && a.Reread?
    ensures Inv(WorkerStep(s, a, worker, phase))
  {
    if phase.Loaded? {
      RereadInv(s, worker, phase.seen, phase.types * EDGE_TYPES != {}, a.refreshed, a.ownerActive);
    } else if phase.DnsDone? {
      RereadInv(s, worker, phase.seen, phase.edgeDue, a.refreshed, a.ownerActive);
    }
  }

  lemma QueryStepInv(s: State, a: Action, worker: nat, phase: Phase)
    requires Inv(s) && PhaseInv(phase, s.row) && a.QueryDns?
    ensures Inv(WorkerStep(s, a, worker, phase))
  {
    if phase.Loaded? {
      EnterInv(s, worker, Queried(phase.seen, phase.types, a.dns));
    }
  }

  lemma ProbeStepInv(s: State, a: Action, worker: nat, phase: Phase)
    requires Inv(s) && PhaseInv(phase, s.row) && a.Probe?
    ensures Inv(WorkerStep(s, a, worker, phase))
  {
    if phase.Probing? {
      EnterInv(s, worker, Probed(phase.seen, CertificateOutcome(a.httpsDisabled, a.certificate, a.now),
                                 OriginOutcome(phase.seen, a.owner, a.workspace)));
    }
  }

  /** The steps that change nothing but what this worker holds. */
  lemma OtherWorkerStepInv(s: State, a: Action, worker: nat, phase: Phase)
    requires Inv(s) && PhaseInv(phase, s.row)
    requires !(a.TakeLease? && phase.FoundDue?) && !(a.CommitDns? && phase.Queried?)
    requires !(a.CommitEdge? && phase.Probed?)
    ensures Inv(WorkerStep(s, a, worker, phase))
  {
    if a.Stop? {
      LeaveInv(s, worker);
    } else if a.Reread? {
      RereadStepInv(s, a, worker, phase);
    } else if a.Load? && phase.Leased? {
      LoadInv(s, worker, phase.types);
    } else if a.QueryDns? {
      QueryStepInv(s, a, worker, phase);
    } else if a.Probe? {
      ProbeStepInv(s, a, worker, phase);
    } else {
      assert WorkerStep(s, a, worker, phase) == s;
    }
  }

  predicate MovesTheRow(a: Action, phase: Phase) {
    (a.TakeLease? && phase.FoundDue?) || (a.CommitDns? && phase.Queried?) || (a.CommitEdge? && phase.Probed?)
  }

  /** Every other step of a worker leaves the row and the history alone. */
  lemma QuietStep(s: State, a: Action, worker: nat, phase: Phase)
    requires !MovesTheRow(a, phase)
    ensures WorkerStep(s, a, worker, phase).row == s.row && WorkerStep(s, a, worker, phase).log == s.log
  {
  }

  lemma LeaseReschedules(s: State, worker: nat, types: set<CheckType>, now: Time)
    ensures var after := DoTakeLease(s, worker, types, now);
      Rescheduled(s.row, after.row) && after.log == s.log
  {
    LeasesReschedule(s.row, types, false, now);
  }

  lemma ConnectReturnedInv(s: State, at: Time)
    requires Inv(s)
    ensures Inv(Step(s, ConnectReturned(at)))
  {
    RescheduledInv(s, DoConnectReturned(s, at).row);
  }

  lemma FindDueInv(s: State, worker: nat, now: Time)
    requires Inv(s)
    ensures Inv(Step(s, FindDue(worker, now)))
  {
  }

  predicate IsCall(a: Action) {
    a.Reissue? || a.Delete? || a.Recheck? || a.ConnectReturned? || a.SetOwnerActive?
  }

  lemma CallInv(s: State, a: Action)
    requires Inv(s) && IsCall(a)
    ensures Inv(Step(s, a))
  {
    match a {
      case Reissue(seed, target, now) => ReissueInv(s, seed, target, now);
      case Delete(now) => DeleteInv(s, now);
      case Recheck(budgetWait, now) => RecheckInv(s, budgetWait, now);
      case ConnectReturned(at) => ConnectReturnedInv(s, at);
      case SetOwnerActive(_) =>
    }
  }

  lemma WorkerInv(s: State, a: Action)
    requires Inv(s) && !IsCall(a) && !a.FindDue?
    ensures Inv(Step(s, a))
  {
    if a.worker in s.workers {
      WorkerStepInv(s, a, a.worker);
    }
  }

  lemma StepInv(s: State, a: Action)
    requires Inv(s)
    ensures Inv(Step(s, a))
  {
    if IsCall(a) {
      CallInv(s, a);
    } else if a.FindDue? {
      FindDueInv(s, a.worker, a.now);
    } else {
      WorkerInv(s, a);
    }
  }

  lemma BeginInv(r: Registration)
    ensures Inv(Begin(r)) && Begin(r).row.deletedAt.None?
  {
    NewRowInv(r.applicationId, r.hostname, r.reference, r.seed, r.target, r.now);
    var created := NewRow(r.applicationId, r.hostname, r.reference, r.seed, r.target, r.now);
    assert forall c: CheckType :: created.checks.Get(c) == Some(Check(Pending, None, 0, None, None, None));
    if r.imported.None? {
      assert CheckInv(created, [], Ownership) && CheckInv(created, [], Routing)
          && CheckInv(created, [], Certificate) && CheckInv(created, [], Origin);
    } else {
      ImportKeeps(created, r.imported.value, r.now);
      ImportedHistory(created, r.imported.value, r.now, Begin(r).log);
    }
  }

  lemma ImportedHistory(row: Row, grandfather: bool, now: Time, log: seq<Entry>)
    requires RowInv(row) && row.status.PendingDns? && row.deletedAt.None?
    requires forall c: CheckType :: row.checks.Get(c) == Some(Check(Pending, None, 0, None, None, None))
    requires |row.claims| == 1 && row.claims[0].status.ClaimPending? && row.claims[0].verifiedBy.None?
    requires log == if grandfather then [ImportSeen(now, VersionOf(row.claims[0]))] else []
    ensures ImportRow(row, grandfather, now).Success?
    ensures HistoryInv(ImportRow(row, grandfather, now).value, log)
  {
    assert row.checks.Get(Routing) == Some(Check(Pending, None, 0, None, None, None));
    ImportKeeps(row, grandfather, now);
    ImportedRowHistory(row, ImportRow(row, grandfather, now).value, grandfather, now, log);
  }

  /** The history after an import, for whatever row it left: `after`. */
  lemma ImportedRowHistory(row: Row, after: Row, grandfather: bool, now: Time, log: seq<Entry>)
    requires forall c: CheckType :: row.checks.Get(c) == Some(Check(Pending, None, 0, None, None, None))
    requires |row.claims| == 1 && row.claims[0].status.ClaimPending? && row.claims[0].verifiedBy.None?
    requires after.claims == if grandfather then VerifiedLast(row.claims, LegacyImport) else row.claims
    requires after.checks == if grandfather
      then row.checks.(ownership := Some(StoredCheck(SEEN_BY_IMPORT, now))) else row.checks
    requires log == if grandfather then [ImportSeen(now, VersionOf(row.claims[0]))] else []
    ensures HistoryInv(after, log)
  {
    LiveIndexIs(after.claims, 0);
    ImportedCheck(row, after, grandfather, now, log, Ownership);
    ImportedCheck(row, after, grandfather, now, log, Routing);
    ImportedCheck(row, after, grandfather, now, log, Certificate);
    ImportedCheck(row, after, grandfather, now, log, Origin);
    ImportedGenuine(row, after, grandfather, now, log);
  }

  lemma ImportedGenuine(row: Row, after: Row, grandfather: bool, now: Time, log: seq<Entry>)
    requires |row.claims| == 1 && row.claims[0].status.ClaimPending? && row.claims[0].verifiedBy.None?
    requires after.claims == if grandfather then VerifiedLast(row.claims, LegacyImport) else row.claims
    requires log == if grandfather then [ImportSeen(now, VersionOf(row.claims[0]))] else []
    ensures ClaimsGenuine(after, log)
  {
    if grandfather {
      assert log[0] in log;
    }
  }

  lemma ImportedCheck(row: Row, after: Row, grandfather: bool, now: Time, log: seq<Entry>, check: CheckType)
    requires forall c: CheckType :: row.checks.Get(c) == Some(Check(Pending, None, 0, None, None, None))
    requires row.claims != [] && after.claims != [] && LiveIndex(after.claims) == 0
    requires VersionOf(after.claims[0]) == VersionOf(row.claims[0])
    requires after.checks == if grandfather
      then row.checks.(ownership := Some(StoredCheck(SEEN_BY_IMPORT, now))) else row.checks
    requires log == if grandfather then [ImportSeen(now, VersionOf(row.claims[0]))] else []
    ensures CheckInv(after, log, check) && Failures(log, check) == []
  {
    assert row.checks.Get(check) == Some(Check(Pending, None, 0, None, None, None));
    if grandfather {
      assert log == [] + [ImportSeen(now, VersionOf(row.claims[0]))];
      EntryAppends([], ImportSeen(now, VersionOf(row.claims[0])), check);
    }
  }

  /** Every reachable state satisfies the invariant, whatever the interleaving. */
  lemma {:induction false} RunInv(r: Registration, actions: seq<Action>)
    ensures Inv(Run(Begin(r), actions))
  {
    if actions == [] {
      BeginInv(r);
    } else {
      RunInv(r, actions[..|actions| - 1]);
      StepInv(Run(Begin(r), actions[..|actions| - 1]), actions[|actions| - 1]);
    }
  }
}
