/**
 * What a pass does to a domain: the status it leads to, the checks it stores, when they are looked at
 * again, and the events it records (`app/services/dns_checks.py`, `app/services/edge_checks.py`).
 */
module PassRules {
  import opened Wrappers
  import opened Domains
  import opened DnsChecks
  import opened EdgeChecks
  import opened Lifecycle

  // --- recorded events -------------------------------------------------------------------------------

  /** The events of `after` are those of `before` and then events of these kinds. */
  ghost predicate Recorded(before: Row, after: Row, kinds: seq<EventKind>) {
    && |after.events| == |before.events| + |kinds|
    && after.events[..|before.events|] == before.events
    && forall i | 0 <= i < |kinds| :: after.events[|before.events| + i].kind == kinds[i]
  }

  lemma RecordedThen(a: Row, b: Row, c: Row, first: seq<EventKind>, second: seq<EventKind>)
    requires Recorded(a, b, first) && Recorded(b, c, second)
    ensures Recorded(a, c, first + second)
  {
    assert c.events[..|a.events|] == c.events[..|b.events|][..|a.events|];
    forall i | 0 <= i < |first|
      ensures c.events[|a.events| + i].kind == first[i]
    {
      assert c.events[|a.events| + i] == c.events[..|b.events|][|a.events| + i];
    }
  }

  /** What storing a result records: the new result, and that a ready domain lost a check. */
  function StoredKinds(row: Row, check: CheckType, outcome: Outcome, ready: bool): seq<EventKind> {
    [CheckUpdated(check, StatusOf(row, check), outcome.status, if outcome.status.Failing? then outcome.errorCode else None)]
      + if ready && outcome.status.Failing? then [StatusChanged(Ready, AttentionRequired, CheckFailed(check))] else []
  }

  lemma StoringRecords(row: Row, check: CheckType, outcome: Outcome, seen: Observation, now: Time)
    requires row.deletedAt.None? && seen.status == outcome.status && seen.errorCode == outcome.errorCode
    ensures RecordCheck(row, check, seen, now).Success?
    ensures Recorded(row, RecordCheck(row, check, seen, now).value, StoredKinds(row, check, outcome, row.status.Ready?))
    ensures RecordCheck(row, check, seen, now).value.status
         == if row.status.Ready? && outcome.status.Failing? then AttentionRequired else row.status
    ensures RecordCheck(row, check, seen, now).value.deletedAt.None?
  {
  }

  lemma StoringTwoRecords(row: Row, first: CheckType, one: Outcome, seen: Observation,
                          second: CheckType, two: Outcome, also: Observation, now: Time)
    requires row.deletedAt.None? && first != second
    requires seen.status == one.status && seen.errorCode == one.errorCode
    requires also.status == two.status && also.errorCode == two.errorCode
    ensures var stored := RecordTwo(row, first, seen, second, also, now);
      && stored.Success?
      && Recorded(row, stored.value, StoredKinds(row, first, one, row.status.Ready?)
                                     + StoredKinds(row, second, two, row.status.Ready? && !one.status.Failing?))
  {
    StoringRecords(row, first, one, seen, now);
    var once := RecordCheck(row, first, seen, now).value;
    assert StatusOf(once, second) == StatusOf(row, second);
    StoringRecords(once, second, two, also, now);
    RecordedThen(row, once, RecordCheck(once, second, also, now).value,
                 StoredKinds(row, first, one, row.status.Ready?),
                 StoredKinds(row, second, two, row.status.Ready? && !one.status.Failing?));
  }

  /** An event is stamped with the caller's clock, or one microsecond after the latest event if that is behind. */
  lemma StampedAt(events: seq<Event>, now: Time)
    ensures var at := Stamp(events, now);
      && at >= now && (forall e | e in events :: e.at < at)
      && (at == now || exists e | e in events :: e.at >= now && at == e.at + 1)
  {
    if events != [] {
      LatestIsOne(events);
    }
  }

  lemma {:induction false} LatestIsOne(events: seq<Event>)
    requires events != []
    ensures exists e | e in events :: e.at == LatestStamp(events)
  {
    var last := events[|events| - 1];
    if |events| > 1 && LatestStamp(events[..|events| - 1]) >= last.at {
      LatestIsOne(events[..|events| - 1]);
    }
  }

  // --- the edge pass -----------------------------------------------------------------------------------

  lemma RuleRecords(stored: Row, now: Time)
    requires ChecksStored(stored) && stored.status in {Provisioning, Ready, AttentionRequired}
    ensures var ruled, turns := EdgeStatusRules(stored, now), !stored.status.Ready? && ChecksPassing(stored);
      && ruled.Success?
      && ruled.value.status == (if ChecksPassing(stored) then Ready else stored.status)
      && Recorded(stored, ruled.value,
                  if turns then [StatusChanged(stored.status, Ready, if stored.status.Provisioning? then ReadinessProbePassed
                                                                     else Recovered)] else [])
  {
  }

  /** What storing both edge results makes of the status and the checks: the row `stored`. */
  ghost predicate EdgePassStored(row: Row, stored: Row, certificate: Outcome, origin: Outcome) {
    && ChecksStored(stored)
    && stored.status == (if row.status.Ready? && !(certificate.Passes() && origin.Passes()) then AttentionRequired else row.status)
    && (ChecksPassing(stored) <==> certificate.Passes() && origin.Passes() && DnsPassing(row))
  }

  lemma EdgeAreStored(row: Row, stored: Row, certificate: Outcome, origin: Outcome, now: Time)
    requires ChecksStored(stored) && !certificate.status.Pending? && !origin.status.Pending?
    requires stored == row.(
      checks := row.checks.(
        certificate := Some(StoredCheck(ScheduleNext(row.checks.certificate, certificate, now), now)),
        origin := Some(StoredCheck(ScheduleNext(row.checks.origin, origin, now), now))),
      status := if row.status.Ready? && (certificate.status.Failing? || origin.status.Failing?) then AttentionRequired else row.status,
      events := stored.events)
    ensures EdgePassStored(row, stored, certificate, origin)
  {
  }

  lemma EdgeStoring(row: Row, certificate: Outcome, origin: Outcome, now: Time)
    requires RowInv(row) && CertificateAuthorized(row, true)
    requires !certificate.status.Pending? && !origin.status.Pending?
    ensures var stored := StoreEdge(row, certificate, origin, now);
      && stored.Success? && EdgePassStored(row, stored.value, certificate, origin)
      && Recorded(row, stored.value, StoredKinds(row, Certificate, certificate, row.status.Ready?)
                                     + StoredKinds(row, Origin, origin, row.status.Ready? && certificate.Passes()))
  {
    var seen, also := ScheduleNext(row.checks.certificate, certificate, now), ScheduleNext(row.checks.origin, origin, now);
    StoreEdgeKeeps(row, certificate, origin, now);
    RecordTwoKeeps(row, Certificate, seen, Origin, also, now);
    EdgeAreStored(row, StoreEdge(row, certificate, origin, now).value, certificate, origin, now);
    StoringTwoRecords(row, Certificate, certificate, seen, Origin, origin, also, now);
  }

  /**
   * An edge pass leaves a domain ready exactly when both its results pass and both DNS checks do; a ready
   * domain that fails needs attention, and any other stays as it is. The events say so, with the reason.
   */
  lemma EdgePassRule(row: Row, certificate: Outcome, origin: Outcome, now: Time)
    requires RowInv(row) && CertificateAuthorized(row, true)
    requires !certificate.status.Pending? && !origin.status.Pending?
    ensures var result := ApplyEdge(row, certificate, origin, now);
      var ready, pass := row.status.Ready?, certificate.Passes() && origin.Passes() && DnsPassing(row);
      && result.Success?
      && result.value.status == (if pass then Ready else if ready then AttentionRequired else row.status)
      && Recorded(row, result.value,
           StoredKinds(row, Certificate, certificate, ready) + StoredKinds(row, Origin, origin, ready && certificate.Passes())
           + if pass && !ready
             then [StatusChanged(row.status, Ready, if row.status.Provisioning? then ReadinessProbePassed else Recovered)]
             else [])
  {
    EdgeStoring(row, certificate, origin, now);
    var stored := StoreEdge(row, certificate, origin, now).value;
    RuleRecords(stored, now);
    var ready := row.status.Ready?;
    RecordedThen(row, stored, ApplyEdge(row, certificate, origin, now).value,
      StoredKinds(row, Certificate, certificate, ready) + StoredKinds(row, Origin, origin, ready && certificate.Passes()),
      if !stored.status.Ready? && ChecksPassing(stored)
      then [StatusChanged(stored.status, Ready, if stored.status.Provisioning? then ReadinessProbePassed else Recovered)]
      else []);
  }

  // --- the DNS pass ------------------------------------------------------------------------------------

  predicate EdgePassing(row: Row) {
    PassingCheck(row, Certificate) && PassingCheck(row, Origin)
  }

  /** Ownership has failed for the whole period of grace, this pass included. */
  predicate LostForADay(row: Row, ownership: Outcome, now: Time) {
    !ownership.Passes() && row.checks.ownership.Some? && row.checks.ownership.value.failingSince.Some?
    && now - row.checks.ownership.value.failingSince.value >= 24 * HOUR
  }

  /** The status a pass leads to, from the status before it. */
  function DnsPassLeadsTo(row: Row, ownership: Outcome, routing: Outcome, now: Time): DomainStatus {
    if ownership.Passes() && routing.Passes() then
      match row.status
      case PendingDns => Provisioning
      case Suspended => Provisioning
      case AttentionRequired => if EdgePassing(row) then Ready else AttentionRequired
      case Provisioning => Provisioning
      case Ready => Ready
      case Deleting => Deleting
    else
      match row.status
      case PendingDns => PendingDns
      case Suspended => Suspended
      case Provisioning => PendingDns
      case AttentionRequired => if LostForADay(row, ownership, now) then Suspended else AttentionRequired
      case Ready => if LostForADay(row, ownership, now) then Suspended else AttentionRequired
      case Deleting => Deleting
  }

  /** Why it moves there, from the status once the results are stored. */
  function DnsReason(from: DomainStatus, to: DomainStatus, ownership: Outcome): Reason {
    match to
    case Provisioning => DnsVerified
    case Ready => Recovered
    case Suspended => OwnershipLost
    case _ => CheckFailed(if ownership.Passes() then Routing else Ownership)
  }

  /** The events of the rules: a pending claim is verified by a pass that passes, and the status moves. */
  function DnsRuleKinds(row: Row, from: DomainStatus, to: DomainStatus, ownership: Outcome, routing: Outcome): seq<EventKind> {
    (if ownership.Passes() && routing.Passes() && ActiveClaim(row).Some? && ActiveClaim(row).value.status.ClaimPending?
     then [ClaimVerifiedEvent(ActiveClaim(row).value.id, DnsTxt)] else [])
    + if from != to then [StatusChanged(from, to, DnsReason(from, to, ownership))] else []
  }

  lemma VerifyingRecords(row: Row, now: Time)
    requires Steady(row) && row.deletedAt.None?
    ensures var verified := MarkClaimVerified(row, DnsTxt, now);
      && verified.Success? && verified.value.status == row.status && verified.value.checks == row.checks
      && ActiveClaim(row).Some?
      && Recorded(row, verified.value, [ClaimVerifiedEvent(ActiveClaim(row).value.id, DnsTxt)])
  {
    MarkClaimVerifiedKeeps(row, DnsTxt, now);
  }

  lemma MovingRecords(row: Row, to: DomainStatus, reason: Reason, now: Time)
    requires row.deletedAt.None? && to in Allowed(row.status) && to != row.status
    requires to.Ready? ==> HasVerifiedClaim(row) && ChecksPassing(row)
    ensures var moved := Transition(row, to, reason, now);
      && moved.Success? && moved.value.status == to
      && Recorded(row, moved.value, [StatusChanged(row.status, to, reason)])
  {
  }

  lemma PassedRecords(row: Row, now: Time)
    requires Steady(row) && row.deletedAt.None? && HasVerifiedClaim(row) && DnsPassing(row)
    ensures var ruled := PassedRules(row, now);
      var to := if row.status in {PendingDns, Suspended} then Provisioning
                else if row.status.AttentionRequired? && EdgePassing(row) then Ready else row.status;
      && ruled.Success? && ruled.value.status == to
      && Recorded(row, ruled.value,
                  if to == row.status then [] else [StatusChanged(row.status, to, if to.Ready? then Recovered else DnsVerified)])
  {
    if row.status in {PendingDns, Suspended} {
      MovingRecords(row, Provisioning, DnsVerified, now);
    } else if row.status.AttentionRequired? && EdgePassing(row) {
      MovingRecords(row, Ready, Recovered, now);
    }
  }

  /** From the row `verified` on, whose claim is verified. */
  lemma FromVerified(row: Row, verified: Row, ownership: Outcome, routing: Outcome, now: Time)
    requires Steady(verified) && verified.deletedAt.None? && HasVerifiedClaim(verified) && DnsPassing(verified)
    requires verified.status == row.status && verified.checks == row.checks && !row.status.Deleting?
    requires ownership.Passes() && routing.Passes()
    ensures var ruled, to := PassedRules(verified, now), DnsPassLeadsTo(row, ownership, routing, now);
      && ruled.Success? && ruled.value.status == to
      && Recorded(verified, ruled.value, if row.status == to then [] else [StatusChanged(row.status, to, DnsReason(row.status, to, ownership))])
  {
    PassedRecords(verified, now);
  }

  lemma PassingRulesRecord(row: Row, ownership: Outcome, routing: Outcome, now: Time)
    requires ChecksStored(row) && DnsPassing(row) && ownership.Passes() && routing.Passes()
    ensures var ruled, to := DnsStatusRules(row, ownership, routing, now), DnsPassLeadsTo(row, ownership, routing, now);
      && ruled.Success? && ruled.value.status == to
      && Recorded(row, ruled.value, DnsRuleKinds(row, row.status, to, ownership, routing))
  {
    if ActiveClaim(row).value.status.ClaimPending? {
      VerifiesFirst(row, ownership, routing, now);
    } else {
      FromVerified(row, row, ownership, routing, now);
    }
  }

  lemma VerifiesFirst(row: Row, ownership: Outcome, routing: Outcome, now: Time)
    requires ChecksStored(row) && DnsPassing(row) && ownership.Passes() && routing.Passes()
    requires ActiveClaim(row).Some? && ActiveClaim(row).value.status.ClaimPending?
    ensures var ruled, to := DnsStatusRules(row, ownership, routing, now), DnsPassLeadsTo(row, ownership, routing, now);
      && ruled.Success? && ruled.value.status == to
      && Recorded(row, ruled.value, DnsRuleKinds(row, row.status, to, ownership, routing))
  {
    VerifyingRecords(row, now);
    MarkClaimVerifiedKeeps(row, DnsTxt, now);
    var verified := MarkClaimVerified(row, DnsTxt, now).value;
    FromVerified(row, verified, ownership, routing, now);
    VerifiedThenRuled(row, verified, PassedRules(verified, now).value, DnsPassLeadsTo(row, ownership, routing, now),
                      ownership, routing);
    assert DnsStatusRules(row, ownership, routing, now) == PassedRules(verified, now);
  }

  lemma VerifiedThenRuled(row: Row, verified: Row, ruled: Row, to: DomainStatus, ownership: Outcome, routing: Outcome)
    requires ActiveClaim(row).Some? && ActiveClaim(row).value.status.ClaimPending? && ownership.Passes() && routing.Passes()
    requires Recorded(row, verified, [ClaimVerifiedEvent(ActiveClaim(row).value.id, DnsTxt)])
    requires Recorded(verified, ruled,
                      if row.status == to then [] else [StatusChanged(row.status, to, DnsReason(row.status, to, ownership))])
    ensures Recorded(row, ruled, DnsRuleKinds(row, row.status, to, ownership, routing))
  {
    RecordedThen(row, verified, ruled, [ClaimVerifiedEvent(ActiveClaim(row).value.id, DnsTxt)],
                 if row.status == to then [] else [StatusChanged(row.status, to, DnsReason(row.status, to, ownership))]);
  }

  lemma FailingRulesRecord(row: Row, ownership: Outcome, routing: Outcome, now: Time)
    requires ChecksStored(row) && !row.status.Ready? && !(ownership.Passes() && routing.Passes())
    ensures var ruled, to := DnsStatusRules(row, ownership, routing, now), DnsPassLeadsTo(row, ownership, routing, now);
      && ruled.Success? && ruled.value.status == to
      && Recorded(row, ruled.value, DnsRuleKinds(row, row.status, to, ownership, routing))
  {
    if row.status.Provisioning? {
      MovingRecords(row, PendingDns, CheckFailed(if !ownership.Passes() then Ownership else Routing), now);
    } else if row.status.AttentionRequired? && LostForADay(row, ownership, now) {
      MovingRecords(row, Suspended, OwnershipLost, now);
    }
  }

  /** What storing both DNS results leaves: the row `stored`. */
  ghost predicate DnsStored(row: Row, stored: Row, ownership: Outcome, routing: Outcome, now: Time) {
    && ChecksStored(stored) && ActiveClaim(stored) == ActiveClaim(row)
    && stored.status == (if row.status.Ready? && !(ownership.Passes() && routing.Passes()) then AttentionRequired else row.status)
    && (DnsPassing(stored) <==> ownership.Passes() && routing.Passes())
    && (EdgePassing(stored) <==> EdgePassing(row))
    && (LostForADay(stored, ownership, now) <==> LostForADay(row, ownership, now))
  }

  lemma AreStored(row: Row, stored: Row, ownership: Outcome, routing: Outcome, fast: bool, now: Time)
    requires ChecksStored(stored) && row.checks.ownership.Some? && !ownership.status.Pending? && !routing.status.Pending?
    requires stored == row.(
      checks := row.checks.(
        ownership := Some(StoredCheck(DnsObservation(row, Ownership, ownership, fast, now), now)),
        routing := Some(StoredCheck(DnsObservation(row, Routing, routing, fast, now), now))),
      status := if row.status.Ready? && (ownership.status.Failing? || routing.status.Failing?) then AttentionRequired else row.status,
      events := stored.events)
    ensures DnsStored(row, stored, ownership, routing, now)
  {
  }

  lemma DnsAreStored(row: Row, ownership: Outcome, routing: Outcome, fast: bool, now: Time)
    requires RowInv(row) && row.deletedAt.None?
    requires !ownership.status.Pending? && !routing.status.Pending?
    ensures var stored := StoreDns(row, ownership, routing, fast, now);
      stored.Success? && DnsStored(row, stored.value, ownership, routing, now)
  {
    StoreDnsKeeps(row, ownership, routing, fast, now);
    AreStored(row, StoreDns(row, ownership, routing, fast, now).value, ownership, routing, fast, now);
  }

  lemma DnsStoring(row: Row, ownership: Outcome, routing: Outcome, fast: bool, now: Time)
    requires RowInv(row) && row.deletedAt.None?
    requires !ownership.status.Pending? && !routing.status.Pending?
    ensures var stored := StoreDns(row, ownership, routing, fast, now);
      && stored.Success? && DnsStored(row, stored.value, ownership, routing, now)
      && Recorded(row, stored.value, StoredKinds(row, Ownership, ownership, row.status.Ready?)
                                     + StoredKinds(row, Routing, routing, row.status.Ready? && ownership.Passes()))
  {
    var seen, also := DnsObservation(row, Ownership, ownership, fast, now), DnsObservation(row, Routing, routing, fast, now);
    DnsAreStored(row, ownership, routing, fast, now);
    StoringTwoRecords(row, Ownership, ownership, seen, Routing, routing, also, now);
  }

  lemma DnsRulesRecord(row: Row, stored: Row, ownership: Outcome, routing: Outcome, now: Time)
    requires DnsStored(row, stored, ownership, routing, now)
    ensures var ruled, to := DnsStatusRules(stored, ownership, routing, now), DnsPassLeadsTo(row, ownership, routing, now);
      && ruled.Success? && ruled.value.status == to
      && Recorded(stored, ruled.value, DnsRuleKinds(row, stored.status, to, ownership, routing))
  {
    if ownership.Passes() && routing.Passes() {
      PassingRulesRecord(stored, ownership, routing, now);
    } else {
      FailingRulesRecord(stored, ownership, routing, now);
    }
  }

  /**
   * Where a DNS pass leads, from every status: passing takes a domain that waits or is suspended to
   * provisioning and one that needs attention to ready if the edge checks pass; failing takes back
   * provisioning, ends ready, and suspends after a day without ownership. The events say so, with reasons.
   */
  lemma DnsPassRule(row: Row, ownership: Outcome, routing: Outcome, fast: bool, now: Time)
    requires RowInv(row) && row.deletedAt.None?
    requires !ownership.status.Pending? && !routing.status.Pending?
    ensures var result, to := ApplyDns(row, ownership, routing, fast, now), DnsPassLeadsTo(row, ownership, routing, now);
      var ready, pass := row.status.Ready?, ownership.Passes() && routing.Passes();
      && result.Success? && result.value.status == to
      && Recorded(row, result.value,
           StoredKinds(row, Ownership, ownership, ready) + StoredKinds(row, Routing, routing, ready && ownership.Passes())
           + DnsRuleKinds(row, if ready && !pass then AttentionRequired else row.status, to, ownership, routing))
  {
    DnsStoring(row, ownership, routing, fast, now);
    var stored := StoreDns(row, ownership, routing, fast, now).value;
    DnsRulesRecord(row, stored, ownership, routing, now);
    var to := DnsPassLeadsTo(row, ownership, routing, now);
    RecordedThen(row, stored, DnsStatusRules(stored, ownership, routing, now).value,
                 StoredKinds(row, Ownership, ownership, row.status.Ready?)
                 + StoredKinds(row, Routing, routing, row.status.Ready? && ownership.Passes()),
                 DnsRuleKinds(row, stored.status, to, ownership, routing));
  }

  // --- what is stored, and when it is looked at again -----------------------------------------------------

  /** The wait after the `n`th failure in a row, in minutes. */
  function MinutesAfter(n: nat): int {
    if n <= 1 then 1 else if n == 2 then 2 else if n == 3 then 5 else if n == 4 then 15 else if n == 5 then 30 else 60
  }

  /** A result as it is stored: a pass is looked at again in six hours, the `n`th failure in a row after its wait. */
  ghost predicate StoredAs(before: Option<Check>, after: Option<Check>, outcome: Outcome, hurried: bool, now: Time) {
    && before.Some? && after.Some?
    && after.value.status == outcome.status && after.value.observedAt == Some(now)
    && (outcome.Passes() ==>
          && after.value.errorCode.None? && after.value.attempts == 0 && after.value.failingSince.None?
          && after.value.nextCheckAt == Some(now + 6 * HOUR))
    && (!outcome.Passes() ==>
          && after.value.errorCode == outcome.errorCode && after.value.attempts == before.value.attempts + 1
          && after.value.failingSince == (if before.value.failingSince.Some? then before.value.failingSince else Some(now))
          && after.value.nextCheckAt ==
               Some(now + if hurried then 30 * SECOND else MinutesAfter(after.value.attempts) * MINUTE))
  }

  lemma ObservedAs(row: Row, check: CheckType, outcome: Outcome, fast: bool, now: Time)
    requires row.checks.Get(check).Some? && !outcome.status.Pending?
    ensures StoredAs(row.checks.Get(check), Some(StoredCheck(DnsObservation(row, check, outcome, fast, now), now)), outcome, fast, now)
    ensures StoredAs(row.checks.Get(check), Some(StoredCheck(ScheduleNext(row.checks.Get(check), outcome, now), now)),
                     outcome, false, now)
  {
  }

  /** What a DNS pass stores; it leaves the edge checks alone. */
  lemma DnsPassStores(row: Row, ownership: Outcome, routing: Outcome, fast: bool, now: Time)
    requires RowInv(row) && row.deletedAt.None? && !ownership.status.Pending? && !routing.status.Pending?
    ensures var after := ApplyDns(row, ownership, routing, fast, now);
      && after.Success?
      && StoredAs(row.checks.ownership, after.value.checks.ownership, ownership, fast, now)
      && StoredAs(row.checks.routing, after.value.checks.routing, routing, fast, now)
      && after.value.checks.certificate == row.checks.certificate && after.value.checks.origin == row.checks.origin
  {
    ApplyDnsKeeps(row, ownership, routing, fast, now);
    ObservedAs(row, Ownership, ownership, fast, now);
    ObservedAs(row, Routing, routing, fast, now);
  }

  /** What an edge pass stores; it leaves the DNS checks alone. */
  lemma EdgePassStores(row: Row, certificate: Outcome, origin: Outcome, now: Time)
    requires RowInv(row) && CertificateAuthorized(row, true) && !certificate.status.Pending? && !origin.status.Pending?
    ensures var after := ApplyEdge(row, certificate, origin, now);
      && after.Success?
      && StoredAs(row.checks.certificate, after.value.checks.certificate, certificate, false, now)
      && StoredAs(row.checks.origin, after.value.checks.origin, origin, false, now)
      && after.value.checks.ownership == row.checks.ownership && after.value.checks.routing == row.checks.routing
  {
    ApplyEdgeKeeps(row, certificate, origin, now);
    ObservedAs(row, Certificate, certificate, false, now);
    ObservedAs(row, Origin, origin, false, now);
  }
}
