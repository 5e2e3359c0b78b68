/**
 * A domain as the service changes it: fields assigned step by step, verified against the
 * functions of `Domains`, `DnsChecks` and `EdgeChecks`. `raised` is the exception, after which
 * the transaction is rolled back.
 */
module DomainRecord {
  import opened Wrappers
  import opened Domains
  import opened DnsChecks
  import opened EdgeChecks

  class DomainRecord {
    const applicationId: nat
    const hostname: string
    const reference: string
    var status: DomainStatus
    var deletedAt: Option<Time>
    var claims: seq<Claim>
    var checks: Checks
    var events: seq<Event>

    function Row(): Domains.Row
      reads this
    {
      Domains.Row.Row(applicationId, hostname, reference, status, deletedAt, claims, checks, events)
    }

    constructor Load(row: Domains.Row)
      ensures Row() == row
    {
      applicationId, hostname, reference := row.applicationId, row.hostname, row.reference;
      status, deletedAt, claims, checks, events := row.status, row.deletedAt, row.claims, row.checks, row.events;
    }

    /** The index of the first claim that is not revoked, as `active_claim` finds it. */
    method FindActiveClaim() returns (i: nat)
      ensures i == LiveIndex(claims)
    {
      i := 0;
      while i < |claims| && claims[i].status.ClaimRevoked?
        invariant i <= |claims|
        invariant LiveIndex(claims) == i + LiveIndex(claims[i..])
      {
        assert claims[i..][1..] == claims[i + 1..];
        i := i + 1;
      }
    }

    method RecordEvent(kind: EventKind, now: Time)
      modifies this`events
      ensures Row() == Record(old(Row()), kind, now)
    {
      var stamp := now;
      if events != [] {
        var last := events[0].at;
        var i := 1;
        while i < |events|
          invariant 1 <= i <= |events|
          invariant last == LatestStamp(events[..i])
        {
          assert events[..i + 1][..i] == events[..i];
          if events[i].at > last {
            last := events[i].at;
          }
          i := i + 1;
        }
        assert events[..i] == events;
        if stamp <= last {
          stamp := last + 1;
        }
      }
      events := events + [Event(kind, stamp)];
    }

    method IssueClaim(seed: Seed, target: string, now: Time)
      modifies this`claims, this`events
      ensures Row() == Domains.IssueClaim(old(Row()), seed, target, now)
    {
      claims := claims + [Claim(seed.id, seed.token, target, ClaimPending, None)];
      RecordEvent(ClaimIssuedEvent(seed.id), now);
    }

    method RevokeLiveClaim(now: Time)
      modifies this`claims, this`events
      ensures Row() == Domains.RevokeLiveClaim(old(Row()), now)
    {
      var i := FindActiveClaim();
      if i == |claims| {
        return;
      }
      var id := claims[i].id;
      claims := claims[i := claims[i].(status := ClaimRevoked)];
      RecordEvent(ClaimRevokedEvent(id), now);
    }

    method MarkClaimVerified(via: Method, now: Time) returns (raised: Option<Error>)
      modifies this`claims, this`events
      ensures Domains.MarkClaimVerified(old(Row()), via, now) ==
        if raised.Some? then Failure(raised.value) else Success(Row())
    {
      var i := FindActiveClaim();
      if i == |claims| || deletedAt.Some? {
        return Some(InvalidStatusTransition);
      }
      claims := claims[i := claims[i].(status := ClaimVerified, verifiedBy := Some(via))];
      RecordEvent(ClaimVerifiedEvent(claims[i].id, via), now);
      return None;
    }

    method TransitionStatus(to: DomainStatus, reason: Reason, now: Time) returns (raised: Option<Error>)
      modifies this`status, this`events
      ensures Transition(old(Row()), to, reason, now) ==
        if raised.Some? then Failure(raised.value) else Success(Row())
    {
      if deletedAt.Some? {
        return Some(InvalidStatusTransition);
      }
      if to == status {
        return None;
      }
      if to !in Allowed(status) {
        return Some(InvalidStatusTransition);
      }
      if to == Ready {
        var i := FindActiveClaim();
        if i == |claims| || !claims[i].status.ClaimVerified? {
          return Some(InvalidStatusTransition);
        }
        if !ChecksPassing(Row()) {
          return Some(InvalidStatusTransition);
        }
      }
      var previous := status;
      status := to;
      RecordEvent(StatusChanged(previous, to, reason), now);
      return None;
    }

    method RecordCheck(check: CheckType, seen: Observation, now: Time) returns (raised: Option<Error>)
      modifies this`checks, this`status, this`events
      ensures Domains.RecordCheck(old(Row()), check, seen, now) ==
        if raised.Some? then Failure(raised.value) else Success(Row())
    {
      var existing := checks.Get(check);
      var previous := if existing.Some? then Some(existing.value.status) else None;
      var code := if seen.status.Failing? then seen.errorCode else None;
      checks := checks.Set(check, Check(seen.status, code, seen.attempts, seen.failingSince, Some(now), seen.nextCheckAt));
      RecordEvent(CheckUpdated(check, previous, seen.status, code), now);
      raised := None;
      if seen.status.Failing? && status.Ready? {
        raised := TransitionStatus(AttentionRequired, CheckFailed(check), now);
      }
    }

    method Reissue(seed: Seed, target: string, now: Time) returns (raised: Option<Error>)
      modifies this
      ensures ReissueClaim(old(Row()), seed, target, now) ==
        if raised.Some? then Failure(raised.value) else Success(Row())
    {
      if deletedAt.Some? {
        return Some(DomainNotFound);
      }
      RevokeLiveClaim(now);
      ghost var revoked := Row();
      var i := 0;
      while i < |CHECK_TYPES|
        invariant 0 <= i <= |CHECK_TYPES|
        invariant ResetChecks(revoked, CHECK_TYPES, now) == ResetChecks(Row(), CHECK_TYPES[i..], now)
      {
        raised := RecordCheck(CHECK_TYPES[i], RESET, now);
        if raised.Some? {
          return;
        }
        assert CHECK_TYPES[i..][1..] == CHECK_TYPES[i + 1..];
        i := i + 1;
      }
      if status in {Provisioning, Ready, AttentionRequired} {
        raised := TransitionStatus(PendingDns, ClaimReissued, now);
        if raised.Some? {
          return;
        }
      }
      IssueClaim(seed, target, now);
      return None;
    }

    method Delete(now: Time)
      modifies this
      ensures Row() == DeleteDomain(old(Row()), now)
    {
      if deletedAt.Some? {
        return;
      }
      status := Deleting;
      deletedAt := Some(now);
      RevokeLiveClaim(now);
      RecordEvent(DomainDeleted, now);
    }

    /** The DNS phase's transaction: two checks stored, then the status rules. */
    method ApplyDnsOutcomes(ownership: Outcome, routing: Outcome, fast: bool, now: Time)
      returns (raised: Option<Error>)
      modifies this
      ensures ApplyDns(old(Row()), ownership, routing, fast, now) ==
        if raised.Some? then Failure(raised.value) else Success(Row())
    {
      ghost var before := Row();
      raised := RecordCheck(Ownership, DnsObservation(Row(), Ownership, ownership, fast, now), now);
      if raised.Some? {
        return;
      }
      ghost var one := Row();
      assert one.checks.routing == before.checks.routing;
      raised := RecordCheck(Routing, DnsObservation(Row(), Routing, routing, fast, now), now);
      if raised.Some? {
        return;
      }
      ghost var stored := Row();
      assert StoreDns(before, ownership, routing, fast, now) == Success(stored);
      var i := FindActiveClaim();
      if ownership.Passes() && routing.Passes() {
        if i < |claims| && claims[i].status.ClaimPending? {
          raised := MarkClaimVerified(DnsTxt, now);
          if raised.Some? {
            return;
          }
        }
        if status in {PendingDns, Suspended} {
          raised := TransitionStatus(Provisioning, DnsVerified, now);
        } else if status.AttentionRequired? && ChecksPassing(Row()) {
          raised := TransitionStatus(Ready, Recovered, now);
        }
        return;
      }
      if status.Provisioning? {
        raised := TransitionStatus(PendingDns, CheckFailed(if !ownership.Passes() then Ownership else Routing), now);
      } else if status.AttentionRequired? && !ownership.Passes() && i < |claims| && claims[i].status.ClaimVerified? {
        var since := checks.ownership;
        if since.Some? && since.value.failingSince.Some? && now - since.value.failingSince.value >= OWNERSHIP_LOSS_GRACE {
          raised := TransitionStatus(Suspended, OwnershipLost, now);
        }
      }
    }

    /** The edge phase's transaction: two checks stored, then the readiness rule. */
    method ApplyEdgeOutcomes(certificate: Outcome, origin: Outcome, now: Time) returns (raised: Option<Error>)
      modifies this
      ensures ApplyEdge(old(Row()), certificate, origin, now) ==
        if raised.Some? then Failure(raised.value) else Success(Row())
    {
      ghost var before := Row();
      raised := RecordCheck(Certificate, ScheduleNext(checks.certificate, certificate, now), now);
      if raised.Some? {
        return;
      }
      ghost var one := Row();
      assert one.checks.origin == before.checks.origin;
      raised := RecordCheck(Origin, ScheduleNext(checks.origin, origin, now), now);
      if raised.Some? {
        return;
      }
      var i := FindActiveClaim();
      if status in {Provisioning, AttentionRequired} && i < |claims| && claims[i].status.ClaimVerified?
         && ChecksPassing(Row()) {
        raised := TransitionStatus(Ready, if status.Provisioning? then ReadinessProbePassed else Recovered, now);
      }
    }
  }
}
