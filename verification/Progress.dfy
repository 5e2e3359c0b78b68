/**
 * That the protocol gets anywhere: a pass no re-issue overtook is applied, a lease lasts two minutes, a
 * recheck makes every check due, and one undisturbed worker takes a domain from registration to ready
 * (`app/dns/worker.py`).
 */
module Progress {
  import opened Wrappers
  import opened Domains
  import opened Resolver
  import opened DnsChecks
  import opened EdgeChecks
  import opened Lifecycle
  import opened Worker
  import opened Interleaving
  import opened PassRules
  import opened Observations

  // --- passes that are applied --------------------------------------------------------------------------

  /** The row after a DNS pass over the row `row` whose results these are. */
  ghost predicate AppliedDns(row: Row, after: Row, ownership: Outcome, routing: Outcome, fast: bool, now: Time) {
    && SameRegistration(after, row) && after.status == DnsPassLeadsTo(row, ownership, routing, now)
    && StoredAs(row.checks.ownership, after.checks.ownership, ownership, fast, now)
    && StoredAs(row.checks.routing, after.checks.routing, routing, fast, now)
    && (HasVerifiedClaim(after) <==> HasVerifiedClaim(row) || (ownership.Passes() && routing.Passes()))
  }

  lemma ApplyDnsApplies(row: Row, ownership: Outcome, routing: Outcome, fast: bool, now: Time)
    requires RowInv(row) && row.deletedAt.None? && !ownership.status.Pending? && !routing.status.Pending?
    ensures ApplyDns(row, ownership, routing, fast, now).Success?
    ensures AppliedDns(row, ApplyDns(row, ownership, routing, fast, now).value, ownership, routing, fast, now)
  {
    DnsPassRule(row, ownership, routing, fast, now);
    DnsPassStores(row, ownership, routing, fast, now);
    ApplyDnsKeeps(row, ownership, routing, fast, now);
    LiveIndexIs(row.claims, |row.claims| - 1);
    var after := ApplyDns(row, ownership, routing, fast, now).value;
    LiveIndexIs(after.claims, |row.claims| - 1);
  }

  /** The edge checks are taken along when they were due, or when the status moved. */
  ghost predicate EdgeFollows(phase: Phase, after: Row, edgeDue: bool, now: Time)
    requires phase.Queried?
  {
    && (edgeDue <==> phase.types * EDGE_TYPES != {} || after.status != phase.seen.status)
    && (edgeDue && phase.types * EDGE_TYPES == {} ==>
          && after.checks.certificate.Some? && after.checks.certificate.value.nextCheckAt == Some(now + 2 * MINUTE)
          && after.checks.origin.Some? && after.checks.origin.value.nextCheckAt == Some(now + 2 * MINUTE))
  }

  lemma FollowsUp(applied: Row, follow: bool, now: Time)
    requires AllChecks(applied.checks)
    ensures CanLease(applied.checks, EDGE_TYPES, true, now)
    ensures var after := AfterDns(applied, follow, now);
      && after == applied.(checks := after.checks)
      && after.checks.ownership == applied.checks.ownership && after.checks.routing == applied.checks.routing
      && (follow ==> after.checks.certificate.Some? && after.checks.certificate.value.nextCheckAt == Some(now + 2 * MINUTE)
                     && after.checks.origin.Some? && after.checks.origin.value.nextCheckAt == Some(now + 2 * MINUTE))
      && (!follow ==> after == applied)
  {
    assert Certificate in EDGE_TYPES && applied.checks.Get(Certificate).Some?;
  }

  lemma PassApplies(row: Row, phase: Phase, fast: bool, now: Time)
    requires RowInv(row) && row.deletedAt.None? && phase.Queried? && ClaimVersion(phase.seen).Some?
    ensures var result := ApplyPass(row, phase, fast, now);
      && result.Success?
      && AppliedDns(row, result.value.row, OwnershipOutcome(phase.dns, phase.seen), RoutingOutcome(phase.dns, phase.seen), fast, now)
      && EdgeFollows(phase, result.value.row, result.value.edgeDue, now)
  {
    var ownership, routing := OwnershipOutcome(phase.dns, phase.seen), RoutingOutcome(phase.dns, phase.seen);
    ApplyDnsApplies(row, ownership, routing, fast, now);
    ApplyDnsKeeps(row, ownership, routing, fast, now);
    var applied := ApplyDns(row, ownership, routing, fast, now).value;
    var follow := phase.types * EDGE_TYPES == {} && applied.status != phase.seen.status;
    FollowsUp(applied, follow, now);
    StillApplied(row, applied, AfterDns(applied, follow, now), ownership, routing, fast, now);
  }

  lemma StillApplied(row: Row, applied: Row, after: Row, ownership: Outcome, routing: Outcome, fast: bool, now: Time)
    requires AppliedDns(row, applied, ownership, routing, fast, now) && after == applied.(checks := after.checks)
    requires after.checks.ownership == applied.checks.ownership && after.checks.routing == applied.checks.routing
    ensures AppliedDns(row, after, ownership, routing, fast, now)
  {
  }

  /** The state after a DNS pass: what it stored, one entry more in the history, and the worker going on. */
  ghost predicate PassedDns(s: State, after: State, worker: nat, phase: Phase, fast: bool, now: Time)
    requires phase.Queried?
  {
    && AppliedDns(s.row, after.row, OwnershipOutcome(phase.dns, phase.seen), RoutingOutcome(phase.dns, phase.seen), fast, now)
    && |after.log| == |s.log| + 1 && after.log[..|s.log|] == s.log
    && worker in after.workers && after.workers[worker].DnsDone? && after.workers[worker].seen == after.row
    && EdgeFollows(phase, after.row, after.workers[worker].edgeDue, now)
  }

  lemma CommitApplies(s: State, worker: nat, phase: Phase, fast: bool, now: Time)
    requires RowInv(s.row) && s.row.deletedAt.None? && phase.Queried? && ClaimVersion(s.row) == ClaimVersion(phase.seen)
    ensures PassedDns(s, DoCommitDns(s, worker, phase, fast, now), worker, phase, fast, now)
  {
    LiveIndexIs(s.row.claims, |s.row.claims| - 1);
    PassApplies(s.row, phase, fast, now);
  }

  lemma DnsCommitStep(s: State, worker: nat, fast: bool, now: Time)
    requires worker in s.workers && s.workers[worker].Queried?
    ensures Step(s, CommitDns(worker, fast, now)) == DoCommitDns(s, worker, s.workers[worker], fast, now)
  {
  }

  lemma EdgeCommitStep(s: State, worker: nat, now: Time)
    requires worker in s.workers && s.workers[worker].Probed?
    ensures Step(s, CommitEdge(worker, now)) == DoCommitEdge(s, worker, s.workers[worker], now)
  {
  }

  /** In every reachable state, the results of a pass over the claim that is still live are applied. */
  lemma CurrentPassIsApplied(r: Registration, actions: seq<Action>, worker: nat, fast: bool, now: Time)
    requires var s := Run(Begin(r), actions);
      && worker in s.workers && s.workers[worker].Queried? && s.row.deletedAt.None?
      && ClaimVersion(s.row) == ClaimVersion(s.workers[worker].seen)
    ensures var s := Run(Begin(r), actions);
      PassedDns(s, Step(s, CommitDns(worker, fast, now)), worker, s.workers[worker], fast, now)
  {
    RunInv(r, actions);
    var s := Run(Begin(r), actions);
    DnsCommitStep(s, worker, fast, now);
    CommitApplies(s, worker, s.workers[worker], fast, now);
  }

  /** The row after an edge pass. */
  ghost predicate AppliedEdge(row: Row, after: Row, certificate: Outcome, origin: Outcome, now: Time) {
    && after.status == (if certificate.Passes() && origin.Passes() && DnsPassing(row) then Ready
                        else if row.status.Ready? then AttentionRequired else row.status)
    && StoredAs(row.checks.certificate, after.checks.certificate, certificate, false, now)
    && StoredAs(row.checks.origin, after.checks.origin, origin, false, now)
  }

  lemma CommitEdgeApplies(s: State, worker: nat, phase: Phase, now: Time)
    requires RowInv(s.row) && CertificateAuthorized(s.row, s.ownerActive) && phase.Probed?
    requires ClaimVersion(s.row) == ClaimVersion(phase.seen)
    requires !phase.certificate.status.Pending? && !phase.origin.status.Pending?
    ensures var after := DoCommitEdge(s, worker, phase, now);
      && AppliedEdge(s.row, after.row, phase.certificate, phase.origin, now)
      && |after.log| == |s.log| + 1 && after.log[..|s.log|] == s.log
  {
    EdgePassRule(s.row, phase.certificate, phase.origin, now);
    EdgePassStores(s.row, phase.certificate, phase.origin, now);
  }

  lemma ProbedOutcomes(s: State, worker: nat)
    requires Inv(s) && worker in s.workers && s.workers[worker].Probed?
    ensures !s.workers[worker].certificate.status.Pending? && !s.workers[worker].origin.status.Pending?
  {
    assert PhaseInv(s.workers[worker], s.row);
  }

  /** And so are those of a probe, while the domain may have a certificate. */
  lemma CurrentProbeIsApplied(r: Registration, actions: seq<Action>, worker: nat, now: Time)
    requires var s := Run(Begin(r), actions);
      && worker in s.workers && s.workers[worker].Probed? && CertificateAuthorized(s.row, s.ownerActive)
      && ClaimVersion(s.row) == ClaimVersion(s.workers[worker].seen)
    ensures var s := Run(Begin(r), actions);
      var phase, after := s.workers[worker], Step(s, CommitEdge(worker, now));
      && AppliedEdge(s.row, after.row, phase.certificate, phase.origin, now)
      && |after.log| == |s.log| + 1 && after.log[..|s.log|] == s.log
  {
    RunInv(r, actions);
    var s := Run(Begin(r), actions);
    EdgeCommitStep(s, worker, now);
    ProbedOutcomes(s, worker);
    CommitEdgeApplies(s, worker, s.workers[worker], now);
  }

  // --- leases and due times -----------------------------------------------------------------------------

  /** A lease of two minutes: until then the check is due for nobody. Other checks are not touched. */
  lemma LeaseLasts(checks: Checks, types: set<CheckType>, force: bool, now: Time, check: CheckType, t: Time)
    ensures var leased := LeaseChecks(checks, types, force, now);
      if check in types && checks.Get(check).Some? && (force || checks.Get(check).value.nextCheckAt.None?
                                                       || checks.Get(check).value.nextCheckAt.value <= now)
      then IsDue(leased.Get(check), t) <==> t >= now + 2 * MINUTE
      else leased.Get(check) == checks.Get(check)
  {
  }

  /** A new or re-issued check is due at once, and every check is when a recheck was granted. */
  lemma DueAtOnce(row: Row, seed: Seed, target: string, budgetWait: Option<int>, now: Time, check: CheckType, t: Time)
    requires RowInv(row)
    ensures row.deletedAt.None? && FreshId(row, seed.id) ==>
      var after := ReissueClaim(row, seed, target, now);
      after.Success? && IsDue(after.value.checks.Get(check), t)
    ensures RequestRecheck(row, budgetWait, now).Success? && t >= now ==>
      IsDue(RequestRecheck(row, budgetWait, now).value.checks.Get(check), t)
  {
    if row.deletedAt.None? && FreshId(row, seed.id) {
      ReissueKeeps(row, seed, target, now);
    }
    if RequestRecheck(row, budgetWait, now).Success? {
      RecheckKeeps(row, budgetWait, now);
    }
  }

  // --- rechecks ------------------------------------------------------------------------------------------

  lemma {:induction false} LastIsLatest(events: seq<Event>)
    requires StrictlyIncreasing(events)
    ensures var last := LastRecheck(events);
      && (last.None? ==> forall e | e in events :: !e.kind.RecheckRequested?)
      && (last.Some? ==>
            && (exists e | e in events :: e.kind.RecheckRequested? && e.at == last.value)
            && forall e | e in events && e.kind.RecheckRequested? :: e.at <= last.value)
  {
    if events != [] {
      var before, final := events[..|events| - 1], events[|events| - 1];
      LastIsLatest(before);
      assert events == before + [final];
      forall e | e in before
        ensures e.at < final.at
      {
        var i :| 0 <= i < |before| && before[i] == e;
        IncreasingMeansOrdered(events, i, |events| - 1);
      }
      assert final in events;
    }
  }

  /** Rechecks of a domain are at least a minute apart; the wait that is told is enough and not a second too long. */
  lemma RecheckRule(row: Row, budgetWait: Option<int>, now: Time)
    requires RowInv(row)
    ensures var result := RequestRecheck(row, budgetWait, now);
      var recent := exists e | e in row.events :: e.kind.RecheckRequested? && e.at + MINUTE > now;
      if row.deletedAt.Some? then result == Failure(InvalidStatusTransition)
      else if recent then
        && result.Failure? && result.error.RateLimited?
        && (forall e | e in row.events && e.kind.RecheckRequested? :: e.at + MINUTE <= now + result.error.retryAfter * SECOND)
        && (exists e | e in row.events ::
              e.kind.RecheckRequested? && e.at + MINUTE > now + (result.error.retryAfter - 1) * SECOND)
      else if budgetWait.Some? then result == Failure(RateLimited(budgetWait.value))
      else result.Success?
  {
    LastIsLatest(row.events);
  }

  // --- from registration to ready -------------------------------------------------------------------------

  lemma RunSnoc(s: State, actions: seq<Action>, a: Action)
    ensures Run(s, actions + [a]) == Step(Run(s, actions), a)
  {
    assert (actions + [a])[..|actions|] == actions;
  }

  /** One worker takes the due checks of a live domain, loads it and queries DNS, undisturbed. */
  function QueryRun(worker: nat, dns: Resolver, now: Time): seq<Action> {
    [FindDue(worker, now)] + [TakeLease(worker)] + [Load(worker)] + [QueryDns(worker, dns)]
  }

  lemma TakesLease(s: State, worker: nat, now: Time)
    requires worker !in s.workers && DueTypes(s.row.checks, now) != {}
    ensures var types, found := DueTypes(s.row.checks, now), Step(s, FindDue(worker, now));
      var leased := s.row.(checks := LeaseChecks(s.row.checks, types, false, now));
      && Rescheduled(s.row, leased)
      && Step(found, TakeLease(worker)) == Enter(Enter(s, worker, FoundDue(types, now)).(row := leased), worker, Leased(types))
  {
    var types := DueTypes(s.row.checks, now);
    var c :| c in types;
    assert IsDue(s.row.checks.Get(c), now);
    LeasesReschedule(s.row, types, false, now);
  }

  lemma LoadsAndQueries(s: State, worker: nat, types: set<CheckType>, dns: Resolver)
    requires worker in s.workers && s.workers[worker] == Leased(types) && types * DNS_TYPES != {}
    requires s.row.deletedAt.None? && !s.row.status.Deleting?
    ensures Step(Step(s, Load(worker)), QueryDns(worker, dns))
         == Enter(Enter(s, worker, Loaded(s.row, types)), worker, Queried(s.row, types, dns))
  {
  }

  lemma RunFour(s: State, a: Action, b: Action, c: Action, d: Action)
    ensures Run(s, [a] + [b] + [c] + [d]) == Step(Step(Step(Step(s, a), b), c), d)
  {
    assert [] + [a] == [a];
    RunSnoc(s, [], a);
    RunSnoc(s, [a], b);
    RunSnoc(s, [a] + [b], c);
    RunSnoc(s, [a] + [b] + [c], d);
  }

  lemma QueryRunLeads(s: State, worker: nat, dns: Resolver, now: Time)
    requires worker !in s.workers && s.row.deletedAt.None? && !s.row.status.Deleting?
    requires DueTypes(s.row.checks, now) * DNS_TYPES != {}
    ensures var after := Run(s, QueryRun(worker, dns, now));
      && Rescheduled(s.row, after.row) && after.ownerActive == s.ownerActive
      && worker in after.workers && after.workers[worker] == Queried(after.row, DueTypes(s.row.checks, now), dns)
  {
    RunFour(s, FindDue(worker, now), TakeLease(worker), Load(worker), QueryDns(worker, dns));
    TakesLease(s, worker, now);
    LoadsAndQueries(Step(Step(s, FindDue(worker, now)), TakeLease(worker)), worker, DueTypes(s.row.checks, now), dns);
  }

  /** The rest of the run: the pass is applied, the domain read again, the probes made and their results applied. */
  function ProbeRun(worker: nat, fast: bool, httpsDisabled: bool, owner: Owner, certificate: CertificateProbe,
                    workspace: WorkspaceProbe, times: (Time, Time, Time)): seq<Action> {
    [CommitDns(worker, fast, times.0)] + [Reread(worker, true, true)]
      + [Probe(worker, httpsDisabled, owner, certificate, workspace, times.1)] + [CommitEdge(worker, times.2)]
  }

  lemma RereadsAndProbes(s: State, worker: nat, httpsDisabled: bool, owner: Owner, certificate: CertificateProbe,
                         workspace: WorkspaceProbe, now: Time)
    requires worker in s.workers && s.workers[worker] == DnsDone(s.row, true) && CertificateAuthorized(s.row, true)
    ensures var probed := Step(Step(s, Reread(worker, true, true)), Probe(worker, httpsDisabled, owner, certificate, workspace, now));
      && probed.row == s.row && probed.ownerActive == s.ownerActive
      && worker in probed.workers
      && probed.workers[worker] == Probed(s.row, CertificateOutcome(httpsDisabled, certificate, now), OriginOutcome(s.row, owner, workspace))
  {
  }

  lemma EdgeRunLeads(s: State, worker: nat, httpsDisabled: bool, owner: Owner, certificate: CertificateProbe,
                     workspace: WorkspaceProbe, probedAt: Time, now: Time)
    requires RowInv(s.row) && worker in s.workers && s.workers[worker] == DnsDone(s.row, true)
    requires CertificateAuthorized(s.row, true) && s.ownerActive
    ensures var probed := Step(Step(s, Reread(worker, true, true)), Probe(worker, httpsDisabled, owner, certificate, workspace, probedAt));
      AppliedEdge(s.row, Step(probed, CommitEdge(worker, now)).row, CertificateOutcome(httpsDisabled, certificate, probedAt),
                  OriginOutcome(s.row, owner, workspace), now)
  {
    RereadsAndProbes(s, worker, httpsDisabled, owner, certificate, workspace, probedAt);
    var probed := Step(Step(s, Reread(worker, true, true)), Probe(worker, httpsDisabled, owner, certificate, workspace, probedAt));
    EdgeCommitStep(probed, worker, now);
    CommitEdgeApplies(probed, worker, probed.workers[worker], now);
  }

  /** A domain that waits for DNS or is suspended, after a pass that shows its token and route. */
  lemma WaitingPasses(s: State, worker: nat, fast: bool, now: Time)
    requires Inv(s) && s.row.deletedAt.None? && s.row.status in {PendingDns, Suspended}
    requires worker in s.workers && s.workers[worker].Queried? && s.workers[worker].seen == s.row
    requires var dns, claim := s.workers[worker].dns, ActiveClaim(s.row);
      claim.Some? && ShowsToken(dns, s.row.hostname, claim.value.token) && LeadsTo(dns, s.row.hostname, claim.value.cnameTarget)
    ensures var after := Step(s, CommitDns(worker, fast, now));
      && Inv(after) && after.row.status.Provisioning? && DnsPassing(after.row) && CertificateAuthorized(after.row, true)
      && worker in after.workers && after.workers[worker] == DnsDone(after.row, true) && after.ownerActive == s.ownerActive
      && SameRegistration(after.row, s.row)
  {
    var phase := s.workers[worker];
    DnsOutcomesMean(phase.dns, s.row);
    DnsCommitStep(s, worker, fast, now);
    CommitApplies(s, worker, phase, fast, now);
    StepInv(s, CommitDns(worker, fast, now));
    CommitKeepsOwner(s, worker, phase, fast, now);
  }

  lemma CommitKeepsOwner(s: State, worker: nat, phase: Phase, fast: bool, now: Time)
    requires phase.Queried?
    ensures DoCommitDns(s, worker, phase, fast, now).ownerActive == s.ownerActive
  {
  }

  lemma {:induction false} RunAppends(s: State, a: seq<Action>, b: seq<Action>)
    ensures Run(s, a + b) == Run(Run(s, a), b)
    decreases |b|
  {
    if b == [] {
      assert a + b == a;
    } else {
      assert (a + b)[..|a + b| - 1] == a + b[..|b| - 1];
      RunAppends(s, a, b[..|b| - 1]);
    }
  }

  /** The live claim's records are in DNS, and both probes pass. */
  ghost predicate AllInPlace(row: Row, dns: Resolver, httpsDisabled: bool, owner: Owner, certificate: CertificateProbe,
                             workspace: WorkspaceProbe, probedAt: Time) {
    && ActiveClaim(row).Some?
    && ShowsToken(dns, row.hostname, ActiveClaim(row).value.token)
    && LeadsTo(dns, row.hostname, ActiveClaim(row).value.cnameTarget)
    && CertificateOutcome(httpsDisabled, certificate, probedAt).Passes()
    && OriginOutcome(row, owner, workspace).Passes()
  }

  /** After the DNS pass: passing probes make the domain ready. */
  lemma ProbesMakeReady(s: State, worker: nat, httpsDisabled: bool, owner: Owner, certificate: CertificateProbe,
                        workspace: WorkspaceProbe, probedAt: Time, now: Time)
    requires RowInv(s.row) && DnsPassing(s.row) && CertificateAuthorized(s.row, true) && s.ownerActive
    requires worker in s.workers && s.workers[worker] == DnsDone(s.row, true)
    requires CertificateOutcome(httpsDisabled, certificate, probedAt).Passes() && OriginOutcome(s.row, owner, workspace).Passes()
    ensures var probed := Step(Step(s, Reread(worker, true, true)), Probe(worker, httpsDisabled, owner, certificate, workspace, probedAt));
      Step(probed, CommitEdge(worker, now)).row.status.Ready?
  {
    EdgeRunLeads(s, worker, httpsDisabled, owner, certificate, workspace, probedAt, now);
  }

  lemma SameOrigin(row: Row, after: Row, owner: Owner, workspace: WorkspaceProbe)
    requires SameRegistration(after, row)
    ensures OriginOutcome(after, owner, workspace) == OriginOutcome(row, owner, workspace)
  {
  }

  lemma ProbeRunLeads(s: State, worker: nat, fast: bool, httpsDisabled: bool, owner: Owner, certificate: CertificateProbe,
                      workspace: WorkspaceProbe, times: (Time, Time, Time))
    requires Inv(s) && s.row.deletedAt.None? && s.row.status in {PendingDns, Suspended} && s.ownerActive
    requires worker in s.workers && s.workers[worker].Queried? && s.workers[worker].seen == s.row
    requires AllInPlace(s.row, s.workers[worker].dns, httpsDisabled, owner, certificate, workspace, times.1)
    ensures Run(s, ProbeRun(worker, fast, httpsDisabled, owner, certificate, workspace, times)).row.status.Ready?
  {
    WaitingPasses(s, worker, fast, times.0);
    var passed := Step(s, CommitDns(worker, fast, times.0));
    SameOrigin(s.row, passed.row, owner, workspace);
    ProbesMakeReady(passed, worker, httpsDisabled, owner, certificate, workspace, times.1, times.2);
    RunFour(s, CommitDns(worker, fast, times.0), Reread(worker, true, true),
            Probe(worker, httpsDisabled, owner, certificate, workspace, times.1), CommitEdge(worker, times.2));
  }

  lemma {:induction false} RunKeepsInv(s: State, actions: seq<Action>)
    requires Inv(s)
    ensures Inv(Run(s, actions))
  {
    if actions != [] {
      RunKeepsInv(s, actions[..|actions| - 1]);
      StepInv(Run(s, actions[..|actions| - 1]), actions[|actions| - 1]);
    }
  }

  lemma StillInPlace(row: Row, after: Row, dns: Resolver, httpsDisabled: bool, owner: Owner, certificate: CertificateProbe,
                     workspace: WorkspaceProbe, probedAt: Time)
    requires AllInPlace(row, dns, httpsDisabled, owner, certificate, workspace, probedAt) && Rescheduled(row, after)
    ensures AllInPlace(after, dns, httpsDisabled, owner, certificate, workspace, probedAt)
  {
    SameOrigin(row, after, owner, workspace);
  }

  /** The state may be any that meets the invariant. */
  lemma UndisturbedRun(s: State, worker: nat, dns: Resolver, now: Time, fast: bool, httpsDisabled: bool, owner: Owner,
                       certificate: CertificateProbe, workspace: WorkspaceProbe, times: (Time, Time, Time))
    requires Inv(s) && s.row.deletedAt.None? && s.row.status in {PendingDns, Suspended} && s.ownerActive
    requires worker !in s.workers && DueTypes(s.row.checks, now) * DNS_TYPES != {}
    requires AllInPlace(s.row, dns, httpsDisabled, owner, certificate, workspace, times.1)
    ensures Run(Run(s, QueryRun(worker, dns, now)),
                ProbeRun(worker, fast, httpsDisabled, owner, certificate, workspace, times)).row.status.Ready?
  {
    QueryRunLeads(s, worker, dns, now);
    RunKeepsInv(s, QueryRun(worker, dns, now));
    var queried := Run(s, QueryRun(worker, dns, now));
    StillInPlace(s.row, queried.row, dns, httpsDisabled, owner, certificate, workspace, times.1);
    ProbeRunLeads(queried, worker, fast, httpsDisabled, owner, certificate, workspace, times);
  }

  /**
   * From any reachable state in which a live domain waits for DNS or is suspended, with its DNS checks due:
   * one free worker that is not disturbed makes it ready, if the records are in DNS and the probes pass.
   */
  lemma WaitingBecomesReady(r: Registration, actions: seq<Action>, worker: nat, dns: Resolver, now: Time, fast: bool,
                            httpsDisabled: bool, owner: Owner, certificate: CertificateProbe, workspace: WorkspaceProbe,
                            times: (Time, Time, Time))
    requires var s := Run(Begin(r), actions);
      && s.row.deletedAt.None? && s.row.status in {PendingDns, Suspended} && s.ownerActive
      && worker !in s.workers && DueTypes(s.row.checks, now) * DNS_TYPES != {}
      && AllInPlace(s.row, dns, httpsDisabled, owner, certificate, workspace, times.1)
    ensures var s := Run(Begin(r), actions);
      var undisturbed := QueryRun(worker, dns, now) + ProbeRun(worker, fast, httpsDisabled, owner, certificate, workspace, times);
      Run(s, undisturbed).row.status.Ready?
  {
    var s := Run(Begin(r), actions);
    RunInv(r, actions);
    UndisturbedRun(s, worker, dns, now, fast, httpsDisabled, owner, certificate, workspace, times);
    RunAppends(s, QueryRun(worker, dns, now), ProbeRun(worker, fast, httpsDisabled, owner, certificate, workspace, times));
  }

  /** So a registered domain is one undisturbed run away from ready. */
  lemma RegisteredBecomesReady(r: Registration, worker: nat, dns: Resolver, now: Time, fast: bool, httpsDisabled: bool,
                               owner: Owner, certificate: CertificateProbe, workspace: WorkspaceProbe, times: (Time, Time, Time))
    requires r.imported.None?
    requires AllInPlace(Begin(r).row, dns, httpsDisabled, owner, certificate, workspace, times.1)
    ensures var undisturbed := QueryRun(worker, dns, now) + ProbeRun(worker, fast, httpsDisabled, owner, certificate, workspace, times);
      Run(Begin(r), undisturbed).row.status.Ready?
  {
    NewRowInv(r.applicationId, r.hostname, r.reference, r.seed, r.target, r.now);
    assert Begin(r).row.checks.Get(Ownership) == Some(Check(Pending, None, 0, None, None, None));
    assert Ownership in DueTypes(Begin(r).row.checks, now) * DNS_TYPES;
    WaitingBecomesReady(r, [], worker, dns, now, fast, httpsDisabled, owner, certificate, workspace, times);
  }
}
