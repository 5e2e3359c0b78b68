/**
 * What every service call keeps of a domain row: the shape of its claims, an event log that
 * reproduces the row, and the rules that tie the status to the claim and the checks.
 */
module Lifecycle {
  import opened Wrappers
  import opened Domains
  import opened DnsChecks
  import opened EdgeChecks

  // --- the row an event log describes -----------------------------------------------------------

  type CheckView = Option<(CheckStatus, Option<string>)>

  datatype CheckViews = CheckViews(
    ownership: CheckView,
    routing: CheckView,
    certificate: CheckView,
    origin: CheckView)
  {
    function Get(check: CheckType): CheckView {
      match check
      case Ownership => ownership
      case Routing => routing
      case Certificate => certificate
      case Origin => origin
    }

    function Set(check: CheckType, value: CheckView): CheckViews {
      match check
      case Ownership => this.(ownership := value)
      case Routing => this.(routing := value)
      case Certificate => this.(certificate := value)
      case Origin => this.(origin := value)
    }
  }

  datatype View = View(
    status: DomainStatus,
    deleted: bool,
    checks: CheckViews,
    live: Option<(nat, ClaimStatus)>)

  function ViewOfCheck(check: Option<Check>): CheckView {
    if check.Some? then Some((check.value.status, check.value.errorCode)) else None
  }

  function ViewOfChecks(checks: Checks): CheckViews {
    CheckViews(ViewOfCheck(checks.ownership), ViewOfCheck(checks.routing),
               ViewOfCheck(checks.certificate), ViewOfCheck(checks.origin))
  }

  function ViewOf(row: Row): View {
    var claim := ActiveClaim(row);
    View(row.status, row.deletedAt.Some?, ViewOfChecks(row.checks),
         if claim.Some? then Some((claim.value.id, claim.value.status)) else None)
  }

  /** One event's effect; None when the event does not fit what came before it. */
  function ApplyEvent(view: Option<View>, kind: EventKind): Option<View> {
    if view.None? then
      if kind.DomainCreated?
      then
        var unseen := Some((Pending, None));
        Some(View(PendingDns, false, CheckViews(unseen, unseen, unseen, unseen), None))
      else None
    else
      var v := view.value;
      match kind
      case DomainCreated => None
      case DomainImported(_) => view
      case RecheckRequested => view
      case ClaimIssuedEvent(id) => if v.live.None? then Some(v.(live := Some((id, ClaimPending)))) else None
      case ClaimVerifiedEvent(id, _) =>
        if v.live.Some? && v.live.value.0 == id then Some(v.(live := Some((id, ClaimVerified)))) else None
      case ClaimRevokedEvent(id) =>
        if v.live.Some? && v.live.value.0 == id then Some(v.(live := None)) else None
      case CheckUpdated(c, before, after, code) =>
        if before == (if v.checks.Get(c).Some? then Some(v.checks.Get(c).value.0) else None)
        then Some(v.(checks := v.checks.Set(c, Some((after, code))))) else None
      case StatusChanged(from, to, _) => if v.status == from then Some(v.(status := to)) else None
      case DomainDeleted => if !v.deleted then Some(v.(status := Deleting, deleted := true)) else None
  }

  function Fold(events: seq<Event>): Option<View> {
    if events == [] then None
    else ApplyEvent(Fold(events[..|events| - 1]), events[|events| - 1].kind)
  }

  /** Each event is stamped later than the one before it. */
  ghost predicate StrictlyIncreasing(events: seq<Event>) {
    |events| <= 1
    || (events[|events| - 2].at < events[|events| - 1].at && StrictlyIncreasing(events[..|events| - 1]))
  }

  lemma {:induction false} IncreasingMeansOrdered(events: seq<Event>, i: nat, j: nat)
    requires StrictlyIncreasing(events) && i < j < |events|
    ensures events[i].at < events[j].at
  {
    if j < |events| - 1 {
      IncreasingMeansOrdered(events[..|events| - 1], i, j);
    } else if i < j - 1 {
      IncreasingMeansOrdered(events[..|events| - 1], i, j - 1);
    }
  }

  lemma RecordAppends(row: Row, kind: EventKind, now: Time)
    requires StrictlyIncreasing(row.events)
    ensures var events := Record(row, kind, now).events;
      && |events| == |row.events| + 1
      && events[|row.events|].kind == kind
      && Fold(events) == ApplyEvent(Fold(row.events), kind)
      && StrictlyIncreasing(events)
  {
  }

  // --- the invariant ------------------------------------------------------------------------------

  ghost predicate ClaimsOk(row: Row) {
    && |row.claims| >= 1
    && (forall i | 0 <= i < |row.claims| - 1 :: row.claims[i].status.ClaimRevoked?)
    && (row.claims[|row.claims| - 1].status.ClaimRevoked? <==> row.deletedAt.Some?)
    && (forall i | 0 <= i < |row.claims| - 1 :: row.claims[i].id != row.claims[|row.claims| - 1].id)
  }

  ghost predicate AllChecks(checks: Checks) {
    checks.ownership.Some? && checks.routing.Some? && checks.certificate.Some? && checks.origin.Some?
  }

  /** The parts every single write keeps, also between two writes of one transaction. */
  ghost predicate Steady(row: Row) {
    && ClaimsOk(row)
    && AllChecks(row.checks)
    && (row.deletedAt.Some? <==> row.status.Deleting?)
    && StrictlyIncreasing(row.events)
    && Fold(row.events) == Some(ViewOf(row))
  }

  /** How the status of a live row follows from its claim and its checks. */
  ghost predicate StatusRules(row: Row) {
    && (row.status in {Provisioning, Ready, AttentionRequired} ==> HasVerifiedClaim(row))
    && (row.status in {Ready, AttentionRequired} ==> (row.status.Ready? <==> ChecksPassing(row)))
    && (row.status in {PendingDns, Suspended} ==> !DnsPassing(row))
  }

  /** Holds at every transaction boundary. */
  ghost predicate RowInv(row: Row) {
    Steady(row) && StatusRules(row)
  }

  // A new claim's id is a primary key.
  predicate FreshId(row: Row, id: nat) {
    forall c | c in row.claims :: c.id != id
  }

  lemma LiveIndexIs(claims: seq<Claim>, i: nat)
    requires i < |claims| && !claims[i].status.ClaimRevoked?
    requires forall k | 0 <= k < i :: claims[k].status.ClaimRevoked?
    ensures LiveIndex(claims) == i
  {
  }

  function AllRevoked(claims: seq<Claim>): (revoked: seq<Claim>)
    ensures |revoked| == |claims|
    ensures forall i | 0 <= i < |claims| :: revoked[i] == claims[i].(status := ClaimRevoked)
  {
    seq(|claims|, i requires 0 <= i < |claims| => claims[i].(status := ClaimRevoked))
  }

  lemma EveryCheckType(check: CheckType)
    ensures check in CHECK_TYPES
  {
  }

  // --- single writes ------------------------------------------------------------------------------

  lemma RecordCheckKeeps(row: Row, check: CheckType, seen: Observation, now: Time)
    requires Steady(row) && row.deletedAt.None?
    ensures var result := RecordCheck(row, check, seen, now);
      && result.Success?
      && Steady(result.value)
      && result.value == row.(
           checks := row.checks.Set(check, StoredCheck(seen, now)),
           status := if seen.status.Failing? && row.status.Ready? then AttentionRequired else row.status,
           events := result.value.events)
  {
    var stored := StoreCheck(row, check, seen, now);
    var c := StoredCheck(seen, now);
    RecordAppends(row.(checks := row.checks.Set(check, c)),
                  CheckUpdated(check, StatusOf(row, check), c.status, c.errorCode), now);
    assert Steady(stored);
    if seen.status.Failing? && row.status.Ready? {
      TransitionKeeps(stored, AttentionRequired, CheckFailed(check), now);
    }
  }

  lemma TransitionKeeps(row: Row, to: DomainStatus, reason: Reason, now: Time)
    requires Steady(row) && row.deletedAt.None?
    requires to != row.status && to in Allowed(row.status) && !to.Deleting?
    requires to.Ready? ==> HasVerifiedClaim(row) && ChecksPassing(row)
    ensures var result := Transition(row, to, reason, now);
      && result.Success?
      && Steady(result.value)
      && result.value == row.(status := to, events := result.value.events)
  {
    RecordAppends(row.(status := to), StatusChanged(row.status, to, reason), now);
  }

  function VerifiedLast(claims: seq<Claim>, via: Method): seq<Claim>
    requires claims != []
  {
    claims[|claims| - 1 := claims[|claims| - 1].(status := ClaimVerified, verifiedBy := Some(via))]
  }

  /** Verifying the live claim, which is the last, is the one change the event describes. */
  lemma VerifiedView(row: Row, updated: Row, via: Method)
    requires ClaimsOk(row) && row.deletedAt.None?
    requires updated == row.(claims := VerifiedLast(row.claims, via))
    ensures LiveIndex(row.claims) == |row.claims| - 1 == LiveIndex(updated.claims)
    ensures ClaimsOk(updated) && HasVerifiedClaim(updated)
    ensures ApplyEvent(Some(ViewOf(row)), ClaimVerifiedEvent(row.claims[|row.claims| - 1].id, via)) == Some(ViewOf(updated))
  {
    LiveIndexIs(row.claims, |row.claims| - 1);
    LiveIndexIs(updated.claims, |row.claims| - 1);
  }

  lemma MarkClaimVerifiedKeeps(row: Row, via: Method, now: Time)
    requires Steady(row) && row.deletedAt.None?
    ensures var result := MarkClaimVerified(row, via, now);
      && result.Success?
      && Steady(result.value)
      && HasVerifiedClaim(result.value)
      && result.value == row.(claims := VerifiedLast(row.claims, via), events := result.value.events)
  {
    var updated := row.(claims := VerifiedLast(row.claims, via));
    VerifiedView(row, updated, via);
    var event := ClaimVerifiedEvent(row.claims[|row.claims| - 1].id, via);
    RecordAppends(updated, event, now);
    assert MarkClaimVerified(row, via, now) == Success(Record(updated, event, now));
    RecordedSteady(updated, event, now);
  }

  /** Recording the event that describes the change since the log was last in step puts it in step again. */
  lemma RecordedSteady(row: Row, kind: EventKind, now: Time)
    requires ClaimsOk(row) && AllChecks(row.checks) && (row.deletedAt.Some? <==> row.status.Deleting?)
    requires StrictlyIncreasing(row.events) && ApplyEvent(Fold(row.events), kind) == Some(ViewOf(row))
    ensures Steady(Record(row, kind, now))
    ensures ActiveClaim(Record(row, kind, now)) == ActiveClaim(row)
  {
    RecordAppends(row, kind, now);
  }

  lemma RevokeKeeps(row: Row, now: Time)
    requires StrictlyIncreasing(row.events)
    requires |row.claims| >= 1 && row.claims[|row.claims| - 1].status != ClaimRevoked
    requires forall i | 0 <= i < |row.claims| - 1 :: row.claims[i].status.ClaimRevoked?
    ensures var result := RevokeLiveClaim(row, now);
      && result == row.(claims := result.claims, events := result.events)
      && result.claims == AllRevoked(row.claims)
      && LiveIndex(result.claims) == |result.claims|
      && Fold(result.events) == ApplyEvent(Fold(row.events), ClaimRevokedEvent(row.claims[|row.claims| - 1].id))
      && StrictlyIncreasing(result.events)
  {
  }

  // --- whole calls ----------------------------------------------------------------------------------

  lemma NewRowInv(applicationId: nat, hostname: string, reference: string, seed: Seed, target: string, now: Time)
    ensures var row := NewRow(applicationId, hostname, reference, seed, target, now);
      && RowInv(row)
      && row.status.PendingDns? && row.deletedAt.None?
      && row.claims == [Claim(seed.id, seed.token, target, ClaimPending, None)]
      && row.events[0] == Event(DomainCreated, now)
      && (forall c :: row.checks.Get(c) == Some(Check(Pending, None, 0, None, None, None)))
  {
    var blank := Check(Pending, None, 0, None, None, None);
    var checks := Checks(Some(blank), Some(blank), Some(blank), Some(blank));
    var empty := Row(applicationId, hostname, reference, PendingDns, None, [], checks, []);
    RecordAppends(empty, DomainCreated, now);
    var created := Record(empty, DomainCreated, now);
    var claim := Claim(seed.id, seed.token, target, ClaimPending, None);
    RecordAppends(created.(claims := [claim]), ClaimIssuedEvent(seed.id), now);
    var row := NewRow(applicationId, hostname, reference, seed, target, now);
    assert created.claims + [claim] == [claim];
    assert LiveIndex(row.claims) == 0;
  }

  const SEEN_BY_IMPORT: Observation := Observation(Passing, None, 0, None, None)

  /** What grandfathering does to a freshly recorded import. */
  lemma GrandfatherKeeps(row: Row, now: Time)
    requires RowInv(row) && row.status.PendingDns? && !PassingCheck(row, Routing)
    ensures var verified := MarkClaimVerified(row, LegacyImport, now);
      && verified.Success?
      && var checked := RecordCheck(verified.value, Ownership, SEEN_BY_IMPORT, now);
      && checked.Success? && Steady(checked.value) && HasVerifiedClaim(checked.value)
      && checked.value == row.(
           claims := VerifiedLast(row.claims, LegacyImport),
           checks := row.checks.(ownership := Some(StoredCheck(SEEN_BY_IMPORT, now))),
           events := checked.value.events)
  {
    MarkClaimVerifiedKeeps(row, LegacyImport, now);
    RecordCheckKeeps(MarkClaimVerified(row, LegacyImport, now).value, Ownership, SEEN_BY_IMPORT, now);
  }

  /** The last step of a grandfathered import, from the row `checked` to provisioning. */
  lemma GrandfatheredMoves(checked: Row, now: Time)
    requires Steady(checked) && HasVerifiedClaim(checked) && checked.deletedAt.None? && checked.status.PendingDns?
    requires !PassingCheck(checked, Routing)
    ensures var moved := Transition(checked, Provisioning, Imported, now);
      && moved.Success? && RowInv(moved.value)
      && moved.value == checked.(status := Provisioning, events := moved.value.events)
  {
    TransitionKeeps(checked, Provisioning, Imported, now);
  }

  lemma ImportedUnproven(row: Row, now: Time)
    requires RowInv(row) && row.status.PendingDns? && !PassingCheck(row, Routing)
    ensures var recorded := Record(row, DomainImported(false), now);
      RowInv(recorded) && recorded == row.(events := recorded.events)
    ensures RowInv(Record(row, DomainImported(true), now))
  {
    RecordedSteady(row, DomainImported(false), now);
    RecordedSteady(row, DomainImported(true), now);
  }

  /** A fresh registration can always be imported, grandfathered or not. */
  lemma ImportKeeps(row: Row, grandfather: bool, now: Time)
    requires RowInv(row) && row.status.PendingDns? && !PassingCheck(row, Routing)
    ensures var result := ImportRow(row, grandfather, now);
      && result.Success?
      && RowInv(result.value)
      && result.value == (
           if grandfather
           then row.(status := Provisioning,
                     claims := VerifiedLast(row.claims, LegacyImport),
                     checks := row.checks.(ownership := Some(StoredCheck(SEEN_BY_IMPORT, now))),
                     events := result.value.events)
           else row.(events := result.value.events))
  {
    ImportedUnproven(row, now);
    if grandfather {
      var recorded := Record(row, DomainImported(true), now);
      GrandfatherKeeps(recorded, now);
      var verified := MarkClaimVerified(recorded, LegacyImport, now).value;
      GrandfatheredMoves(RecordCheck(verified, Ownership, SEEN_BY_IMPORT, now).value, now);
    }
  }

  ghost predicate SameRegistration(a: Row, b: Row) {
    && a.applicationId == b.applicationId && a.hostname == b.hostname && a.reference == b.reference
    && a.deletedAt == b.deletedAt
  }

  /** Storing two outcomes in a row: only the checks change, and a failure ends `ready`. */
  lemma RecordTwoKeeps(row: Row, first: CheckType, one: Observation, second: CheckType, two: Observation, now: Time)
    requires Steady(row) && row.deletedAt.None?
    ensures var result := RecordTwo(row, first, one, second, two, now);
      && result.Success?
      && Steady(result.value)
      && result.value == row.(
           checks := row.checks.Set(first, StoredCheck(one, now)).Set(second, StoredCheck(two, now)),
           status := if row.status.Ready? && (one.status.Failing? || two.status.Failing?)
                     then AttentionRequired else row.status,
           events := result.value.events)
  {
    RecordCheckKeeps(row, first, one, now);
    RecordCheckKeeps(RecordCheck(row, first, one, now).value, second, two, now);
  }

  /** Which statuses imply what, when the checks were stored but the rules not yet applied. */
  ghost predicate ChecksStored(row: Row) {
    && Steady(row) && row.deletedAt.None?
    && (row.status in {Provisioning, Ready, AttentionRequired} ==> HasVerifiedClaim(row))
    && (row.status.Ready? ==> ChecksPassing(row))
  }

  /** What the rules do once both DNS checks pass. */
  function PassedRules(row: Row, now: Time): Result<Row, Error> {
    if row.status in {PendingDns, Suspended} then Transition(row, Provisioning, DnsVerified, now)
    else if row.status.AttentionRequired? && ChecksPassing(row) then Transition(row, Ready, Recovered, now)
    else Success(row)
  }

  lemma PassedRulesKeep(row: Row, now: Time)
    requires ChecksStored(row) && HasVerifiedClaim(row) && DnsPassing(row)
    ensures var result := PassedRules(row, now);
      && result.Success? && RowInv(result.value)
      && result.value == row.(status := result.value.status, events := result.value.events)
  {
    if row.status in {PendingDns, Suspended} {
      TransitionKeeps(row, Provisioning, DnsVerified, now);
    } else if row.status.AttentionRequired? && ChecksPassing(row) {
      TransitionKeeps(row, Ready, Recovered, now);
    }
  }

  lemma PassingRulesKeep(row: Row, ownership: Outcome, routing: Outcome, now: Time)
    requires ChecksStored(row) && DnsPassing(row) && ownership.Passes() && routing.Passes()
    ensures var result := DnsStatusRules(row, ownership, routing, now);
      && result.Success?
      && RowInv(result.value)
      && SameRegistration(result.value, row)
      && result.value.checks == row.checks
      && result.value.claims ==
           if ActiveClaim(row).value.status.ClaimPending? then VerifiedLast(row.claims, DnsTxt) else row.claims
  {
    if ActiveClaim(row).value.status.ClaimPending? {
      MarkClaimVerifiedKeeps(row, DnsTxt, now);
      PassedRulesKeep(MarkClaimVerified(row, DnsTxt, now).value, now);
    } else {
      PassedRulesKeep(row, now);
    }
  }

  lemma DnsRulesKeep(row: Row, ownership: Outcome, routing: Outcome, now: Time)
    requires ChecksStored(row)
    requires PassingCheck(row, Ownership) == ownership.Passes() && PassingCheck(row, Routing) == routing.Passes()
    ensures var result := DnsStatusRules(row, ownership, routing, now);
      && result.Success?
      && RowInv(result.value)
      && SameRegistration(result.value, row)
      && result.value.checks == row.checks
      && result.value.claims ==
           if ownership.Passes() && routing.Passes() && ActiveClaim(row).value.status.ClaimPending?
           then VerifiedLast(row.claims, DnsTxt) else row.claims
  {
    if ownership.Passes() && routing.Passes() {
      PassingRulesKeep(row, ownership, routing, now);
    } else if row.status.Provisioning? {
      TransitionKeeps(row, PendingDns, CheckFailed(if !ownership.Passes() then Ownership else Routing), now);
    } else if DnsStatusRules(row, ownership, routing, now) != Success(row) {
      TransitionKeeps(row, Suspended, OwnershipLost, now);
    }
  }

  lemma StoreDnsKeeps(row: Row, ownership: Outcome, routing: Outcome, fast: bool, now: Time)
    requires RowInv(row) && row.deletedAt.None?
    requires !ownership.status.Pending? && !routing.status.Pending?
    ensures var result := StoreDns(row, ownership, routing, fast, now);
      && result.Success?
      && ChecksStored(result.value)
      && result.value == row.(
           checks := row.checks.(
             ownership := Some(StoredCheck(DnsObservation(row, Ownership, ownership, fast, now), now)),
             routing := Some(StoredCheck(DnsObservation(row, Routing, routing, fast, now), now))),
           status := result.value.status,
           events := result.value.events)
  {
    RecordTwoKeeps(row, Ownership, DnsObservation(row, Ownership, ownership, fast, now),
                   Routing, DnsObservation(row, Routing, routing, fast, now), now);
    assert ActiveClaim(StoreDns(row, ownership, routing, fast, now).value) == ActiveClaim(row);
  }

  /** No status call of the DNS phase can be refused, and it leaves the row as the rules demand. */
  lemma ApplyDnsKeeps(row: Row, ownership: Outcome, routing: Outcome, fast: bool, now: Time)
    requires RowInv(row) && row.deletedAt.None?
    requires !ownership.status.Pending? && !routing.status.Pending?
    ensures var result := ApplyDns(row, ownership, routing, fast, now);
      && result.Success?
      && RowInv(result.value)
      && SameRegistration(result.value, row)
      && result.value.claims == (
           if ownership.Passes() && routing.Passes() && ActiveClaim(row).value.status.ClaimPending?
           then VerifiedLast(row.claims, DnsTxt) else row.claims)
      && result.value.checks == row.checks.(
           ownership := Some(StoredCheck(DnsObservation(row, Ownership, ownership, fast, now), now)),
           routing := Some(StoredCheck(DnsObservation(row, Routing, routing, fast, now), now)))
  {
    StoreDnsKeeps(row, ownership, routing, fast, now);
    var stored := StoreDns(row, ownership, routing, fast, now).value;
    assert ActiveClaim(stored) == ActiveClaim(row);
    DnsRulesKeep(stored, ownership, routing, now);
  }

  lemma EdgeRulesKeep(row: Row, now: Time)
    requires ChecksStored(row) && row.status in {Provisioning, Ready, AttentionRequired}
    ensures var result := EdgeStatusRules(row, now);
      && result.Success?
      && RowInv(result.value)
      && result.value == row.(status := result.value.status, events := result.value.events)
      && result.value.status in {Provisioning, Ready, AttentionRequired}
  {
    if row.status in {Provisioning, AttentionRequired} && ChecksPassing(row) {
      TransitionKeeps(row, Ready, if row.status.Provisioning? then ReadinessProbePassed else Recovered, now);
    }
  }

  lemma StoreEdgeKeeps(row: Row, certificate: Outcome, origin: Outcome, now: Time)
    requires RowInv(row) && CertificateAuthorized(row, true)
    requires !certificate.status.Pending? && !origin.status.Pending?
    ensures var result := StoreEdge(row, certificate, origin, now);
      && result.Success?
      && ChecksStored(result.value)
      && result.value.status in {Provisioning, Ready, AttentionRequired}
      && result.value == row.(
           checks := row.checks.(
             certificate := Some(StoredCheck(ScheduleNext(row.checks.certificate, certificate, now), now)),
             origin := Some(StoredCheck(ScheduleNext(row.checks.origin, origin, now), now))),
           status := result.value.status,
           events := result.value.events)
  {
    RecordEdgePair(row, ScheduleNext(row.checks.certificate, certificate, now), ScheduleNext(row.checks.origin, origin, now), now);
  }

  lemma RecordEdgePair(row: Row, certificate: Observation, origin: Observation, now: Time)
    requires RowInv(row) && CertificateAuthorized(row, true)
    requires !certificate.status.Pending? && !origin.status.Pending?
    ensures var result := RecordTwo(row, Certificate, certificate, Origin, origin, now);
      result.Success? && EdgeStored(row, result.value, certificate, origin, now)
  {
    RecordTwoKeeps(row, Certificate, certificate, Origin, origin, now);
    EdgePair(row, RecordTwo(row, Certificate, certificate, Origin, origin, now).value, certificate, origin, now);
  }

  /** What storing both edge results leaves: the row `stored`. */
  ghost predicate EdgeStored(row: Row, stored: Row, certificate: Observation, origin: Observation, now: Time) {
    && ChecksStored(stored)
    && stored.status in {Provisioning, Ready, AttentionRequired}
    && stored == row.(
         checks := row.checks.(certificate := Some(StoredCheck(certificate, now)), origin := Some(StoredCheck(origin, now))),
         status := stored.status,
         events := stored.events)
  }

  lemma EdgePair(row: Row, stored: Row, certificate: Observation, origin: Observation, now: Time)
    requires RowInv(row) && CertificateAuthorized(row, true) && Steady(stored)
    requires !certificate.status.Pending? && !origin.status.Pending?
    requires stored == row.(
      checks := row.checks.Set(Certificate, StoredCheck(certificate, now)).Set(Origin, StoredCheck(origin, now)),
      status := if row.status.Ready? && (certificate.status.Failing? || origin.status.Failing?)
                then AttentionRequired else row.status,
      events := stored.events)
    ensures EdgeStored(row, stored, certificate, origin, now)
  {
    assert HasVerifiedClaim(stored);
    assert row.status.Ready? ==> ChecksPassing(row);
  }

  /** No status call of the edge phase can be refused either. */
  lemma ApplyEdgeKeeps(row: Row, certificate: Outcome, origin: Outcome, now: Time)
    requires RowInv(row) && CertificateAuthorized(row, true)
    requires !certificate.status.Pending? && !origin.status.Pending?
    ensures var result := ApplyEdge(row, certificate, origin, now);
      && result.Success?
      && RowInv(result.value)
      && SameRegistration(result.value, row)
      && result.value.claims == row.claims
      && result.value.status in {Provisioning, Ready, AttentionRequired}
      && result.value.checks == row.checks.(
           certificate := Some(StoredCheck(ScheduleNext(row.checks.certificate, certificate, now), now)),
           origin := Some(StoredCheck(ScheduleNext(row.checks.origin, origin, now), now)))
  {
    StoreEdgeKeeps(row, certificate, origin, now);
    EdgeRulesKeep(StoreEdge(row, certificate, origin, now).value, now);
  }

  ghost predicate BetweenClaims(row: Row) {
    && |row.claims| >= 1 && LiveIndex(row.claims) == |row.claims|
    && (forall i | 0 <= i < |row.claims| :: row.claims[i].status.ClaimRevoked?)
    && AllChecks(row.checks)
    && row.deletedAt.None? && !row.status.Deleting?
    && StrictlyIncreasing(row.events)
    && Fold(row.events) == Some(ViewOf(row))
  }

  /** Resetting the given checks of a row whose old claim is revoked touches nothing else. */
  lemma {:induction false} ResetChecksKeeps(row: Row, types: seq<CheckType>, now: Time)
    requires BetweenClaims(row)
    ensures var result := ResetChecks(row, types, now);
      && result.Success?
      && BetweenClaims(result.value)
      && result.value == row.(checks := result.value.checks, events := result.value.events)
      && (forall c :: result.value.checks.Get(c) ==
            if c in types then Some(StoredCheck(RESET, now)) else row.checks.Get(c))
    decreases |types|
  {
    if types != [] {
      var c := StoredCheck(RESET, now);
      var stored := StoreCheck(row, types[0], RESET, now);
      RecordAppends(row.(checks := row.checks.Set(types[0], c)),
                    CheckUpdated(types[0], StatusOf(row, types[0]), c.status, c.errorCode), now);
      ResetChecksKeeps(stored, types[1..], now);
      assert forall t :: t in types <==> t == types[0] || t in types[1..];
    }
  }

  lemma RevokeLeavesBetween(row: Row, now: Time)
    requires RowInv(row) && row.deletedAt.None?
    ensures var result := RevokeLiveClaim(row, now);
      && BetweenClaims(result)
      && result == row.(claims := result.claims, events := result.events)
      && result.claims == AllRevoked(row.claims)
  {
  }

  /** The row after revoking the live claim and resetting every check. */
  lemma RevokeAndResetKeeps(row: Row, now: Time)
    requires RowInv(row) && row.deletedAt.None?
    ensures var result := ResetChecks(RevokeLiveClaim(row, now), CHECK_TYPES, now);
      && result.Success?
      && BetweenClaims(result.value)
      && SameRegistration(result.value, row) && result.value.status == row.status
      && result.value.claims == AllRevoked(row.claims)
      && (forall c :: result.value.checks.Get(c) == Some(StoredCheck(RESET, now)))
  {
    RevokeLeavesBetween(row, now);
    ResetChecksKeeps(RevokeLiveClaim(row, now), CHECK_TYPES, now);
    forall c: CheckType {
      EveryCheckType(c);
    }
  }

  lemma BackToPendingKeeps(row: Row, now: Time)
    requires BetweenClaims(row)
    ensures var result := BackToPending(row, now);
      && result.Success?
      && BetweenClaims(result.value)
      && result.value == row.(status := if row.status.Suspended? then Suspended else PendingDns,
                              events := result.value.events)
  {
  }

  lemma IssueKeeps(row: Row, seed: Seed, target: string, now: Time)
    requires BetweenClaims(row) && FreshId(row, seed.id)
    requires row.status in {PendingDns, Suspended} && !DnsPassing(row)
    ensures var result := IssueClaim(row, seed, target, now);
      && RowInv(result)
      && result == row.(
           claims := row.claims + [Claim(seed.id, seed.token, target, ClaimPending, None)],
           events := result.events)
  {
  }

  /** Re-issuing succeeds on every live row; nothing observed under the old claim is left. */
  lemma ReissueKeeps(row: Row, seed: Seed, target: string, now: Time)
    requires RowInv(row) && row.deletedAt.None? && FreshId(row, seed.id)
    ensures var result := ReissueClaim(row, seed, target, now);
      && result.Success?
      && RowInv(result.value)
      && SameRegistration(result.value, row)
      && result.value.status == (if row.status.Suspended? then Suspended else PendingDns)
      && result.value.claims == AllRevoked(row.claims) + [Claim(seed.id, seed.token, target, ClaimPending, None)]
      && (forall c :: result.value.checks.Get(c) == Some(StoredCheck(RESET, now)))
  {
    RevokeAndResetKeeps(row, now);
    var reset := ResetChecks(RevokeLiveClaim(row, now), CHECK_TYPES, now).value;
    BackToPendingKeeps(reset, now);
    var moved := BackToPending(reset, now).value;
    assert moved.checks.Get(Ownership) == Some(StoredCheck(RESET, now));
    IssueKeeps(moved, seed, target, now);
  }

  /** Revoking a live row's claim on the way to its tombstone is the only event but the last. */
  lemma TombstoneRevoked(row: Row, now: Time)
    requires RowInv(row) && row.deletedAt.None?
    ensures var revoked := RevokeLiveClaim(row.(status := Deleting, deletedAt := Some(now)), now);
      && revoked == row.(status := Deleting, deletedAt := Some(now), claims := AllRevoked(row.claims), events := revoked.events)
      && LiveIndex(revoked.claims) == |revoked.claims|
      && StrictlyIncreasing(revoked.events)
      && Fold(revoked.events) == Some(ViewOf(row).(live := None))
  {
  }

  /** Deleting a live row tombstones it and leaves it without a live claim. */
  lemma DeleteKeeps(row: Row, now: Time)
    requires RowInv(row) && row.deletedAt.None?
    ensures var result := DeleteDomain(row, now);
      && RowInv(result)
      && result == row.(status := Deleting, deletedAt := Some(now),
                        claims := AllRevoked(row.claims), events := result.events)
      && ActiveClaim(result).None?
      && result.events != [] && result.events[|result.events| - 1].kind == DomainDeleted
  {
    TombstoneRevoked(row, now);
    RecordAppends(RevokeLiveClaim(row.(status := Deleting, deletedAt := Some(now)), now), DomainDeleted, now);
  }

  lemma RecheckKeeps(row: Row, budgetWait: Option<int>, now: Time)
    requires RowInv(row) && RequestRecheck(row, budgetWait, now).Success?
    ensures var result := RequestRecheck(row, budgetWait, now).value;
      && RowInv(result)
      && result == row.(checks := result.checks, events := result.events)
      && result.checks == row.checks.AllDueAt(now)
  {
  }
}
