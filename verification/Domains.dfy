/**
 * A domain row with its claims, checks and events, and what each service call makes of it
 * (`app/services/domains.py`). The functions are the specification the `Domain` class is
 * verified against; `Lifecycle` proves what they keep.
 */
module Domains {
  import opened Wrappers

  // Microseconds, the resolution of the stored timestamps.
  type Time = int

  const SECOND: Time := 1_000_000
  const MINUTE: Time := 60 * SECOND
  const HOUR: Time := 60 * MINUTE

  const RECHECK_MIN_INTERVAL: Time := 60 * SECOND

  datatype DomainStatus = PendingDns | Provisioning | Ready | AttentionRequired | Suspended | Deleting
  datatype ClaimStatus = ClaimPending | ClaimVerified | ClaimRevoked
  datatype Method = DnsTxt | LegacyImport
  datatype CheckType = Ownership | Routing | Certificate | Origin
  datatype CheckStatus = Pending | Passing | Failing

  const CHECK_TYPES: seq<CheckType> := [Ownership, Routing, Certificate, Origin]

  datatype Claim = Claim(
    id: nat,
    token: string,
    cnameTarget: string,
    status: ClaimStatus,
    verifiedBy: Option<Method>)

  // `attempts` and `failingSince` live in the stored details; an absent count reads as zero.
  datatype Check = Check(
    status: CheckStatus,
    errorCode: Option<string>,
    attempts: nat,
    failingSince: Option<Time>,
    observedAt: Option<Time>,
    nextCheckAt: Option<Time>)

  // The domain's check rows, at most one per type.
  datatype Checks = Checks(
    ownership: Option<Check>,
    routing: Option<Check>,
    certificate: Option<Check>,
    origin: Option<Check>)
  {
    function Get(check: CheckType): Option<Check> {
      match check
      case Ownership => ownership
      case Routing => routing
      case Certificate => certificate
      case Origin => origin
    }

    function Set(check: CheckType, value: Check): Checks {
      match check
      case Ownership => this.(ownership := Some(value))
      case Routing => this.(routing := Some(value))
      case Certificate => this.(certificate := Some(value))
      case Origin => this.(origin := Some(value))
    }

    /** Every check row there is, due at `at`. */
    function AllDueAt(at: Time): Checks {
      Checks(DueAt(ownership, at), DueAt(routing, at), DueAt(certificate, at), DueAt(origin, at))
    }

    static function DueAt(check: Option<Check>, at: Time): Option<Check> {
      if check.Some? then Some(check.value.(nextCheckAt := Some(at))) else None
    }
  }

  datatype Reason =
    | CheckFailed(check: CheckType)
    | DnsVerified
    | ReadinessProbePassed
    | Recovered
    | OwnershipLost
    | ClaimReissued
    | Imported

  datatype EventKind =
    | DomainCreated
    | DomainImported(grandfathered: bool)
    | ClaimIssuedEvent(claim: nat)
    | ClaimVerifiedEvent(claim: nat, via: Method)
    | ClaimRevokedEvent(claim: nat)
    | CheckUpdated(check: CheckType, before: Option<CheckStatus>, after: CheckStatus, errorCode: Option<string>)
    | StatusChanged(from: DomainStatus, to: DomainStatus, reason: Reason)
    | DomainDeleted
    | RecheckRequested

  datatype Event = Event(kind: EventKind, at: Time)

  datatype Row = Row(
    applicationId: nat,
    hostname: string,
    reference: string,
    status: DomainStatus,
    deletedAt: Option<Time>,
    claims: seq<Claim>,
    checks: Checks,
    events: seq<Event>)

  datatype Error =
    | DomainNotFound
    | InvalidStatusTransition
    | RateLimited(retryAfter: int)

  // The random part of a new claim.
  datatype Seed = Seed(id: nat, token: string)

  // What a check run hands to `RecordCheck`.
  datatype Observation = Observation(
    status: CheckStatus,
    errorCode: Option<string>,
    attempts: nat,
    failingSince: Option<Time>,
    nextCheckAt: Option<Time>)

  // --- reading a row ---------------------------------------------------------------------

  function LiveIndex(claims: seq<Claim>): (i: nat)
    ensures i <= |claims|
    ensures i < |claims| ==> !claims[i].status.ClaimRevoked?
    ensures forall j | 0 <= j < i :: claims[j].status.ClaimRevoked?
  {
    if claims == [] || !claims[0].status.ClaimRevoked? then 0 else 1 + LiveIndex(claims[1..])
  }

  function ActiveClaim(row: Row): Option<Claim> {
    var i := LiveIndex(row.claims);
    if i < |row.claims| then Some(row.claims[i]) else None
  }

  predicate HasVerifiedClaim(row: Row) {
    ActiveClaim(row).Some? && ActiveClaim(row).value.status.ClaimVerified?
  }

  predicate PassingCheck(row: Row, check: CheckType) {
    row.checks.Get(check).Some? && row.checks.Get(check).value.status.Passing?
  }

  predicate DnsPassing(row: Row) {
    PassingCheck(row, Ownership) && PassingCheck(row, Routing)
  }

  predicate ChecksPassing(row: Row) {
    DnsPassing(row) && PassingCheck(row, Certificate) && PassingCheck(row, Origin)
  }

  function StatusOf(row: Row, check: CheckType): Option<CheckStatus> {
    if row.checks.Get(check).Some? then Some(row.checks.Get(check).value.status) else None
  }

  function Allowed(from: DomainStatus): set<DomainStatus> {
    match from
    case PendingDns => {Provisioning, AttentionRequired, Suspended, Deleting}
    case Provisioning => {Ready, PendingDns, AttentionRequired, Suspended, Deleting}
    case Ready => {PendingDns, AttentionRequired, Suspended, Deleting}
    case AttentionRequired => {PendingDns, Provisioning, Ready, Suspended, Deleting}
    case Suspended => {PendingDns, Provisioning, Deleting}
    case Deleting => {}
  }

  // --- the event log ---------------------------------------------------------------------

  function LatestStamp(events: seq<Event>): (latest: Time)
    requires events != []
    ensures forall e | e in events :: e.at <= latest
  {
    var last := events[|events| - 1];
    if |events| == 1 || LatestStamp(events[..|events| - 1]) < last.at then last.at
    else LatestStamp(events[..|events| - 1])
  }

  /** The caller's clock, pushed past the domain's latest event. */
  function Stamp(events: seq<Event>, now: Time): Time {
    if events != [] && now <= LatestStamp(events) then LatestStamp(events) + 1 else now
  }

  function Record(row: Row, kind: EventKind, now: Time): Row {
    row.(events := row.events + [Event(kind, Stamp(row.events, now))])
  }

  // --- claims ------------------------------------------------------------------------------

  function IssueClaim(row: Row, seed: Seed, target: string, now: Time): Row {
    var claim := Claim(seed.id, seed.token, target, ClaimPending, None);
    Record(row.(claims := row.claims + [claim]), ClaimIssuedEvent(seed.id), now)
  }

  function SetClaim(row: Row, i: nat, claim: Claim): Row
    requires i < |row.claims|
  {
    row.(claims := row.claims[i := claim])
  }

  function RevokeLiveClaim(row: Row, now: Time): Row {
    var i := LiveIndex(row.claims);
    if i == |row.claims| then row
    else
      var claim := row.claims[i];
      Record(SetClaim(row, i, claim.(status := ClaimRevoked)), ClaimRevokedEvent(claim.id), now)
  }

  function MarkClaimVerified(row: Row, via: Method, now: Time): Result<Row, Error> {
    var i := LiveIndex(row.claims);
    if i == |row.claims| || row.deletedAt.Some? then Failure(InvalidStatusTransition)
    else
      var claim := row.claims[i].(status := ClaimVerified, verifiedBy := Some(via));
      Success(Record(SetClaim(row, i, claim), ClaimVerifiedEvent(claim.id, via), now))
  }

  // --- status and checks --------------------------------------------------------------------

  function Transition(row: Row, to: DomainStatus, reason: Reason, now: Time): Result<Row, Error> {
    if row.deletedAt.Some? then Failure(InvalidStatusTransition)
    else if to == row.status then Success(row)
    else if to !in Allowed(row.status) then Failure(InvalidStatusTransition)
    else if to == Ready && !(HasVerifiedClaim(row) && ChecksPassing(row)) then Failure(InvalidStatusTransition)
    else Success(Record(row.(status := to), StatusChanged(row.status, to, reason), now))
  }

  /** Nothing leaves deletion; readiness is not reached past provisioning, nor left for it; a suspension is lifted only to start over. */
  lemma MovesAre(from: DomainStatus, to: DomainStatus)
    ensures to in Allowed(from) <==>
      && from != to && from != Deleting
      && !(to == Ready && from in {PendingDns, Suspended})
      && !(from == Ready && to == Provisioning) && !(from == Suspended && to == AttentionRequired)
  {
  }

  function StoredCheck(seen: Observation, now: Time): Check {
    Check(seen.status, if seen.status.Failing? then seen.errorCode else None,
          seen.attempts, seen.failingSince, Some(now), seen.nextCheckAt)
  }

  function StoreCheck(row: Row, check: CheckType, seen: Observation, now: Time): Row {
    var stored := StoredCheck(seen, now);
    Record(row.(checks := row.checks.Set(check, stored)),
           CheckUpdated(check, StatusOf(row, check), stored.status, stored.errorCode), now)
  }

  function RecordCheck(row: Row, check: CheckType, seen: Observation, now: Time): Result<Row, Error> {
    var stored := StoreCheck(row, check, seen, now);
    if seen.status.Failing? && row.status.Ready?
    then Transition(stored, AttentionRequired, CheckFailed(check), now)
    else Success(stored)
  }

  function RecordTwo(row: Row, first: CheckType, one: Observation, second: CheckType, two: Observation, now: Time)
    : Result<Row, Error>
  {
    var recorded :- RecordCheck(row, first, one, now);
    RecordCheck(recorded, second, two, now)
  }

  const RESET: Observation := Observation(Pending, None, 0, None, None)

  /** `RecordCheck(..., RESET, ...)` for each of the given checks in turn. */
  function ResetChecks(row: Row, types: seq<CheckType>, now: Time): Result<Row, Error>
    decreases |types|
  {
    if types == [] then Success(row)
    else
      var first :- RecordCheck(row, types[0], RESET, now);
      ResetChecks(first, types[1..], now)
  }

  // --- calls of the API -------------------------------------------------------------------

  function NewRow(applicationId: nat, hostname: string, reference: string, seed: Seed, target: string, now: Time): Row {
    var blank := Check(Pending, None, 0, None, None, None);
    var row := Row(applicationId, hostname, reference, PendingDns, None, [],
                   Checks(Some(blank), Some(blank), Some(blank), Some(blank)), []);
    IssueClaim(Record(row, DomainCreated, now), seed, target, now)
  }

  /** What a legacy import does to the row it has just created. */
  function ImportRow(row: Row, grandfather: bool, now: Time): Result<Row, Error> {
    var recorded := Record(row, DomainImported(grandfather), now);
    if !grandfather then Success(recorded)
    else
      var verified :- MarkClaimVerified(recorded, LegacyImport, now);
      var checked :- RecordCheck(verified, Ownership, Observation(Passing, None, 0, None, None), now);
      Transition(checked, Provisioning, Imported, now)
  }

  function BackToPending(row: Row, now: Time): Result<Row, Error> {
    if row.status in {Provisioning, Ready, AttentionRequired}
    then Transition(row, PendingDns, ClaimReissued, now)
    else Success(row)
  }

  function ReissueClaim(row: Row, seed: Seed, target: string, now: Time): Result<Row, Error> {
    if row.deletedAt.Some? then Failure(DomainNotFound)
    else
      var reset :- ResetChecks(RevokeLiveClaim(row, now), CHECK_TYPES, now);
      var moved :- BackToPending(reset, now);
      Success(IssueClaim(moved, seed, target, now))
  }

  function DeleteDomain(row: Row, now: Time): Row {
    if row.deletedAt.Some? then row
    else
      var tombstone := row.(status := Deleting, deletedAt := Some(now));
      Record(RevokeLiveClaim(tombstone, now), DomainDeleted, now)
  }

  function LastRecheck(events: seq<Event>): Option<Time> {
    if events == [] then None
    else
      var last := events[|events| - 1];
      if last.kind.RecheckRequested? then Some(last.at) else LastRecheck(events[..|events| - 1])
  }

  /** `budgetWait`: seconds until the application's hourly number of rechecks allows another, if it is spent. */
  function RequestRecheck(row: Row, budgetWait: Option<int>, now: Time): Result<Row, Error> {
    var last := LastRecheck(row.events);
    if row.deletedAt.Some? || row.status.Deleting? then Failure(InvalidStatusTransition)
    else if last.Some? && last.value + RECHECK_MIN_INTERVAL > now then
      Failure(RateLimited((last.value + RECHECK_MIN_INTERVAL - now + SECOND - 1) / SECOND))
    else if budgetWait.Some? then Failure(RateLimited(budgetWait.value))
    else
      var due := row.(checks := row.checks.AllDueAt(now));
      Success(Record(due, RecheckRequested, now))
  }
}
