/** The worker's transactions on a stored domain, step by step (`app/dns/worker.py`). */
module WorkerTransactions {
  import opened Wrappers
  import opened Domains
  import opened Resolver
  import opened DnsChecks
  import opened EdgeChecks
  import opened Lifecycle
  import opened Worker
  import opened DomainRecord

  /** Take the lease of the given checks: those due, or with `force` all there are. */
  method LeaseDomain(d: DomainRecord, types: set<CheckType>, force: bool, now: Time) returns (leased: bool)
    modifies d`checks
    ensures leased == CanLease(old(d.checks), types, force, now)
    ensures d.checks == LeaseChecks(old(d.checks), types, force, now)
  {
    leased := false;
    ghost var before := d.checks;
    for i := 0 to |CHECK_TYPES|
      invariant forall j | 0 <= j < i ::
        d.checks.Get(CHECK_TYPES[j]) == LeaseCheck(before.Get(CHECK_TYPES[j]), CHECK_TYPES[j] in types, force, now)
      invariant forall j | i <= j < |CHECK_TYPES| :: d.checks.Get(CHECK_TYPES[j]) == before.Get(CHECK_TYPES[j])
      invariant leased <==> exists j | 0 <= j < i :: CHECK_TYPES[j] in types && Leasable(before.Get(CHECK_TYPES[j]), force, now)
    {
      var c := CHECK_TYPES[i];
      var check := d.checks.Get(c);
      if c in types && Leasable(check, force, now) {
        d.checks := d.checks.Set(c, check.value.(nextCheckAt := Some(now + LEASE)));
        leased := true;
      }
    }
    assert d.checks.Get(CHECK_TYPES[0]) == d.checks.ownership && d.checks.Get(CHECK_TYPES[1]) == d.checks.routing;
    assert d.checks.Get(CHECK_TYPES[2]) == d.checks.certificate && d.checks.Get(CHECK_TYPES[3]) == d.checks.origin;
    forall c | c in types
      ensures exists j :: 0 <= j < |CHECK_TYPES| && CHECK_TYPES[j] == c
    {
      EveryTypeListed(c);
    }
  }

  predicate Leasable(check: Option<Check>, force: bool, now: Time) {
    (force && check.Some?) || IsDue(check, now)
  }

  lemma EveryTypeListed(c: CheckType)
    ensures exists j :: 0 <= j < |CHECK_TYPES| && CHECK_TYPES[j] == c
  {
    var j := match c case Ownership => 0 case Routing => 1 case Certificate => 2 case Origin => 3;
    assert CHECK_TYPES[j] == c;
  }

  /** What the step of the protocol does once the results are applied to the row, which gives `applied`. */
  lemma AppliedPass(before: Row, seen: Row, types: set<CheckType>, dns: Resolver, fast: bool, now: Time, applied: Row)
    requires before.deletedAt.None? && !before.status.Deleting?
    requires ClaimVersion(before) == ClaimVersion(seen) && ClaimVersion(seen).Some?
    requires ApplyDns(before, OwnershipOutcome(dns, seen), RoutingOutcome(dns, seen), fast, now) == Success(applied)
    ensures var due := types * EDGE_TYPES != {};
      var follow := !due && applied.status != seen.status && CanLease(applied.checks, EDGE_TYPES, true, now);
      var row, after := AfterDns(applied, follow, now), DoCommitDns(State(before, map[], [], true), 0, Queried(seen, types, dns), fast, now);
      after.row == row && after.workers == map[0 := DnsDone(row, due || follow)]
  {
  }

  /** The transaction after the DNS queries: discard what belongs to another claim, or apply it. */
  method FinishDnsPass(d: DomainRecord, seen: Row, types: set<CheckType>, dns: Resolver, fast: bool, now: Time)
    returns (done: bool, edgeDue: bool)
    requires RowInv(d.Row())
    modifies d
    ensures var after := DoCommitDns(State(old(d.Row()), map[], [], true), 0, Queried(seen, types, dns), fast, now);
      && d.Row() == after.row
      && done == (0 in after.workers)
      && (done ==> after.workers[0] == DnsDone(d.Row(), edgeDue))
  {
    done, edgeDue := false, types * EDGE_TYPES != {};
    if d.deletedAt.Some? || d.status.Deleting? {
      return;
    }
    if ClaimVersion(d.Row()) != ClaimVersion(seen) {
      d.checks := d.checks.(ownership := Checks.DueAt(d.checks.ownership, now), routing := Checks.DueAt(d.checks.routing, now));
      return;
    }
    var ownership, routing := OwnershipOutcome(dns, seen), RoutingOutcome(dns, seen);
    ghost var before := d.Row();
    LiveIndexIs(before.claims, |before.claims| - 1);
    ApplyDnsKeeps(before, ownership, routing, fast, now);
    var raised := d.ApplyDnsOutcomes(ownership, routing, fast, now);
    ghost var applied := d.Row();
    assert ApplyDns(before, ownership, routing, fast, now) == Success(applied);
    AppliedPass(before, seen, types, dns, fast, now, applied);
    if d.status != seen.status && !edgeDue {
      edgeDue := LeaseDomain(d, EDGE_TYPES, true, now);
      assert edgeDue ==> d.Row() == AfterDns(applied, true, now);
      if !edgeDue {
        NothingLeased(applied.checks, EDGE_TYPES, true, now);
      }
    }
    done := true;
  }

  lemma NothingLeased(checks: Checks, types: set<CheckType>, force: bool, now: Time)
    requires !CanLease(checks, types, force, now)
    ensures LeaseChecks(checks, types, force, now) == checks
  {
  }

  /** The transaction after the probes: it applies only to the claim they were made for, if that is still eligible. */
  method FinishEdgePass(d: DomainRecord, seen: Row, certificate: Outcome, origin: Outcome, ownerActive: bool, now: Time)
    returns (done: bool)
    requires RowInv(d.Row()) && !certificate.status.Pending? && !origin.status.Pending?
    modifies d
    ensures var after := DoCommitEdge(State(old(d.Row()), map[], [], ownerActive), 0, Probed(seen, certificate, origin), now);
      d.Row() == after.row && done == (after.log != [])
  {
    done := false;
    if d.deletedAt.Some? || d.status.Deleting? {
      return;
    }
    if ClaimVersion(d.Row()) != ClaimVersion(seen) || !CertificateAuthorized(d.Row(), ownerActive) {
      return;
    }
    ghost var before := d.Row();
    ApplyEdgeKeeps(before, certificate, origin, now);
    var raised := d.ApplyEdgeOutcomes(certificate, origin, now);
    assert ApplyEdge(before, certificate, origin, now) == Success(d.Row());
    done := true;
  }
}
