/**
 * The lifecycle's promises, for every domain, however it was registered, and every run: any
 * sequence of steps of any number of workers and API calls.
 */
module DomainGuarantees {
  import opened Wrappers
  import opened Domains
  import opened DnsChecks
  import opened EdgeChecks
  import opened Lifecycle
  import opened Worker
  import opened Interleaving

  /** No check of a live domain is left from a claim that is no longer live. */
  lemma ChecksSpeakForTheLiveClaim(r: Registration, actions: seq<Action>, check: CheckType)
    ensures var s := Run(Begin(r), actions);
      s.row.deletedAt.None? ==> ActiveClaim(s.row).Some? && Backed(s.row, s.log, check)
  {
    RunInv(r, actions);
  }

  /**
   * A claim that DNS verified, live or revoked since, was verified by one pass that saw the
   * claim's own TXT value and a CNAME chain through the claim's own target. Any other verified
   * claim was imported.
   */
  lemma VerifiedClaimsAreGenuine(r: Registration, actions: seq<Action>, claim: Claim)
    requires claim in Run(Begin(r), actions).row.claims
    ensures var s := Run(Begin(r), actions);
      && (claim.verifiedBy == Some(DnsTxt) ==>
           exists e | e in s.log :: ProvesClaim(e, claim) && DnsShows(e, s.row.hostname, claim))
      && (claim.verifiedBy == Some(LegacyImport) ==>
           exists e | e in s.log :: e.ImportSeen? && e.version == VersionOf(claim))
      && (claim.status.ClaimVerified? ==> claim.verifiedBy.Some?)
  {
    RunInv(r, actions);
    var s := Run(Begin(r), actions);
    assert Genuine(s.log, s.row.hostname, claim);
  }

  /** The status of a domain always agrees with its claim and its checks. */
  lemma StatusAgreesWithChecks(r: Registration, actions: seq<Action>)
    ensures var row := Run(Begin(r), actions).row;
      && (row.status in {Provisioning, Ready, AttentionRequired} ==> HasVerifiedClaim(row))
      && (row.status.Ready? ==> ChecksPassing(row))
      && (row.status.AttentionRequired? ==> !ChecksPassing(row))
      && (row.status in {PendingDns, Suspended} ==> !DnsPassing(row))
      && (row.status.Deleting? <==> row.deletedAt.Some?)
      && (row.deletedAt.Some? ==> ActiveClaim(row).None?)
  {
    RunInv(r, actions);
  }

  /** No status call a worker or a re-issue makes is ever refused. */
  lemma NoStatusCallIsRefused(r: Registration, actions: seq<Action>)
    ensures var s := Run(Begin(r), actions);
      && (forall w, fast, now | w in s.workers && s.workers[w].Queried? && s.row.deletedAt.None?
            && ClaimVersion(s.row) == ClaimVersion(s.workers[w].seen) ::
              ApplyPass(s.row, s.workers[w], fast, now).Success?)
      && (forall w, now | w in s.workers && s.workers[w].Probed? && CertificateAuthorized(s.row, s.ownerActive) ::
              ApplyEdge(s.row, s.workers[w].certificate, s.workers[w].origin, now).Success?)
      && (forall seed: Seed, target, now | s.row.deletedAt.None? && FreshId(s.row, seed.id) ::
              ReissueClaim(s.row, seed, target, now).Success?)
  {
    RunInv(r, actions);
    var s := Run(Begin(r), actions);
    forall w, fast, now | w in s.workers && s.workers[w].Queried? && s.row.deletedAt.None?
        && ClaimVersion(s.row) == ClaimVersion(s.workers[w].seen)
      ensures ApplyPass(s.row, s.workers[w], fast, now).Success?
    {
      assert PhaseInv(s.workers[w], s.row);
      ApplyPassKeeps(s.row, s.log, s.workers[w], fast, now);
    }
    forall w, now | w in s.workers && s.workers[w].Probed? && CertificateAuthorized(s.row, s.ownerActive)
      ensures ApplyEdge(s.row, s.workers[w].certificate, s.workers[w].origin, now).Success?
    {
      assert PhaseInv(s.workers[w], s.row);
      ApplyEdgeKeeps(s.row, s.workers[w].certificate, s.workers[w].origin, now);
    }
    forall seed: Seed, target, now | s.row.deletedAt.None? && FreshId(s.row, seed.id)
      ensures ReissueClaim(s.row, seed, target, now).Success?
    {
      ReissueKeeps(s.row, seed, target, now);
    }
  }

  /**
   * The log is the domain: folding its events gives the row's status, every check's status and
   * error, and the live claim; and no two events share a timestamp or are out of order.
   */
  lemma EventLogReproducesTheRow(r: Registration, actions: seq<Action>)
    ensures var row := Run(Begin(r), actions).row;
      && Fold(row.events) == Some(ViewOf(row))
      && forall i, j | 0 <= i < j < |row.events| :: row.events[i].at < row.events[j].at
  {
    RunInv(r, actions);
    var row := Run(Begin(r), actions).row;
    forall i, j | 0 <= i < j < |row.events|
      ensures row.events[i].at < row.events[j].at
    {
      IncreasingMeansOrdered(row.events, i, j);
    }
  }

  /** `attempts` and `failing_since` are the length and start of the check's failing suffix. */
  lemma FailureCountsAreTheFailingSuffix(r: Registration, actions: seq<Action>, check: CheckType)
    ensures var s := Run(Begin(r), actions);
      var failures := Failures(s.log, check);
      s.row.deletedAt.None? ==>
        && s.row.checks.Get(check).Some?
        && s.row.checks.Get(check).value.attempts == |failures|
        && s.row.checks.Get(check).value.failingSince == (if failures == [] then None else Some(failures[0].at))
        && (s.row.checks.Get(check).value.status.Failing? <==> failures != [])
        && forall e | e in failures :: SpeaksFor(e, ClaimVersion(s.row))
  {
    RunInv(r, actions);
    var s := Run(Begin(r), actions);
    if s.row.deletedAt.None? {
      assert CheckInv(s.row, s.log, check);
      LastWordOfFailures(s.log, check);
    }
  }

  lemma {:induction false} LastWordOfFailures(log: seq<Entry>, check: CheckType)
    ensures Failures(log, check) != [] <==>
      LastWord(log, check).SeenByCheck? && !LastWord(log, check).passed
  {
    if log != [] {
      LastWordOfFailures(log[..|log| - 1], check);
    }
  }

  // --- suspension -------------------------------------------------------------------------------

  predicate GraceIsOver(row: Row, now: Time) {
    && row.checks.ownership.Some? && row.checks.ownership.value.failingSince.Some?
    && now - row.checks.ownership.value.failingSince.value >= OWNERSHIP_LOSS_GRACE
  }

  lemma RulesSuspend(row: Row, ownership: Outcome, routing: Outcome, now: Time)
    requires ChecksStored(row)
    requires PassingCheck(row, Ownership) == ownership.Passes() && PassingCheck(row, Routing) == routing.Passes()
    ensures var result := DnsStatusRules(row, ownership, routing, now);
      && result.Success?
      && (result.value.status.Suspended? <==>
           || (row.status.Suspended? && !(ownership.Passes() && routing.Passes()))
           || (row.status.AttentionRequired? && !ownership.Passes() && GraceIsOver(row, now)))
  {
  }

  /** The same in terms of the row as it was before its results were stored. */
  lemma StoredSuspends(row: Row, stored: Row, ownership: Outcome, routing: Outcome, fast: bool, now: Time)
    requires ChecksStored(stored) && (row.status.Ready? ==> row.checks.ownership.Some? && row.checks.ownership.value.failingSince.None?)
    requires !ownership.status.Pending? && !routing.status.Pending?
    requires stored.checks == row.checks.(
      ownership := Some(StoredCheck(DnsObservation(row, Ownership, ownership, fast, now), now)),
      routing := Some(StoredCheck(DnsObservation(row, Routing, routing, fast, now), now)))
    requires stored.status == (
      if row.status.Ready? && (ownership.status.Failing? || routing.status.Failing?) then AttentionRequired else row.status)
    ensures var result := DnsStatusRules(stored, ownership, routing, now);
      && result.Success?
      && (result.value.status.Suspended? <==>
           || (row.status.Suspended? && !(ownership.Passes() && routing.Passes()))
           || (row.status.AttentionRequired? && !ownership.Passes() && GraceIsOver(row, now)))
  {
    RulesSuspend(stored, ownership, routing, now);
  }

  /** When, exactly, a pass leaves a domain suspended. */
  lemma SuspensionRule(row: Row, ownership: Outcome, routing: Outcome, fast: bool, now: Time)
    requires RowInv(row) && row.deletedAt.None?
    requires row.status.Ready? ==> row.checks.ownership.value.failingSince.None?
    requires !ownership.status.Pending? && !routing.status.Pending?
    ensures var applied := ApplyDns(row, ownership, routing, fast, now);
      && applied.Success?
      && (applied.value.status.Suspended? <==>
           || (row.status.Suspended? && !(ownership.Passes() && routing.Passes()))
           || (row.status.AttentionRequired? && !ownership.Passes() && GraceIsOver(row, now)))
  {
    StoreDnsKeeps(row, ownership, routing, fast, now);
    RecordTwoKeeps(row, Ownership, DnsObservation(row, Ownership, ownership, fast, now),
                   Routing, DnsObservation(row, Routing, routing, fast, now), now);
    StoredSuspends(row, StoreDns(row, ownership, routing, fast, now).value, ownership, routing, fast, now);
  }

  lemma ReissueDoesNotSuspend(s: State, seed: Seed, target: string, now: Time)
    requires RowInv(s.row) && !s.row.status.Suspended?
    ensures !DoReissue(s, seed, target, now).row.status.Suspended?
  {
    if s.row.deletedAt.None? && FreshId(s.row, seed.id) {
      ReissueKeeps(s.row, seed, target, now);
    }
  }

  lemma DeleteDoesNotSuspend(row: Row, now: Time)
    requires RowInv(row) && !row.status.Suspended?
    ensures !DeleteDomain(row, now).status.Suspended?
  {
  }

  lemma RecheckDoesNotSuspend(s: State, budgetWait: Option<int>, now: Time)
    requires RowInv(s.row) && !s.row.status.Suspended?
    ensures !DoRecheck(s, budgetWait, now).row.status.Suspended?
  {
  }

  lemma CallsDoNotSuspend(s: State, a: Action)
    requires RowInv(s.row) && !s.row.status.Suspended? && IsCall(a)
    ensures !Step(s, a).row.status.Suspended?
  {
    if a.Reissue? {
      ReissueDoesNotSuspend(s, a.seed, a.target, a.now);
    } else if a.Delete? {
      DeleteDoesNotSuspend(s.row, a.now);
    } else if a.Recheck? {
      RecheckDoesNotSuspend(s, a.budgetWait, a.now);
    }
  }

  lemma EdgeDoesNotSuspend(s: State, worker: nat, phase: Phase, now: Time)
    requires Inv(s) && !s.row.status.Suspended? && phase.Probed? && PhaseInv(phase, s.row)
    ensures !DoCommitEdge(s, worker, phase, now).row.status.Suspended?
  {
    if s.row.deletedAt.None? && CertificateAuthorized(s.row, s.ownerActive) {
      ApplyEdgeKeeps(s.row, phase.certificate, phase.origin, now);
    }
  }

  lemma OtherStepsDoNotSuspend(s: State, a: Action, worker: nat, phase: Phase)
    requires Inv(s) && !s.row.status.Suspended? && PhaseInv(phase, s.row) && !(a.CommitDns? && phase.Queried?)
    ensures !WorkerStep(s, a, worker, phase).row.status.Suspended?
  {
    if !MovesTheRow(a, phase) {
      QuietStep(s, a, worker, phase);
    } else if a.CommitEdge? {
      EdgeDoesNotSuspend(s, worker, phase, a.now);
    } else {
      LeaseReschedules(s, worker, phase.types, phase.now);
    }
  }

  lemma SuspendingCommit(s: State, worker: nat, phase: Phase, fast: bool, now: Time)
    requires phase.Queried? && !s.row.status.Suspended? && DoCommitDns(s, worker, phase, fast, now).row.status.Suspended?
    ensures s.row.deletedAt.None? && ClaimVersion(s.row) == ClaimVersion(phase.seen)
    ensures var result, after := ApplyPass(s.row, phase, fast, now), DoCommitDns(s, worker, phase, fast, now);
      result.Success? && after.row == result.value.row && after.log == s.log + [result.value.entry]
  {
  }

  /** Only a DNS pass suspends a domain. */
  lemma OnlyPassesSuspend(s: State, a: Action)
    requires Inv(s) && !s.row.status.Suspended? && Step(s, a).row.status.Suspended?
    ensures a.CommitDns? && a.worker in s.workers && s.workers[a.worker].Queried?
    ensures var phase := s.workers[a.worker];
      && s.row.deletedAt.None? && ClaimVersion(s.row) == ClaimVersion(phase.seen)
      && ApplyPass(s.row, phase, a.fast, a.now).Success?
      && Step(s, a).row == ApplyPass(s.row, phase, a.fast, a.now).value.row
      && Step(s, a).log == s.log + [ApplyPass(s.row, phase, a.fast, a.now).value.entry]
  {
    if IsCall(a) {
      CallsDoNotSuspend(s, a);
    } else if !a.FindDue? && a.worker in s.workers {
      var phase := s.workers[a.worker];
      assert PhaseInv(phase, s.row);
      if a.CommitDns? && phase.Queried? {
        SuspendingCommit(s, a.worker, phase, a.fast, a.now);
      } else {
        OtherStepsDoNotSuspend(s, a, a.worker, phase);
      }
    }
  }

  lemma ReadyHasNoOwnershipFailures(row: Row, log: seq<Entry>)
    requires CheckInv(row, log, Ownership) && PassingCheck(row, Ownership)
    ensures row.checks.ownership.value.failingSince.None?
  {
    LastWordOfFailures(log, Ownership);
  }

  lemma FailuresSpanTheGrace(row: Row, log: seq<Entry>, entry: Entry)
    requires CheckInv(row, log, Ownership) && VerifiedThroughout(row, log) && HasVerifiedClaim(row)
    requires entry.DnsSeen? && entry.verified && Some(entry.version) == ClaimVersion(row)
    requires !entry.ownership.Passes() && GraceIsOver(row, entry.at)
    ensures var failures := Failures(log + [entry], Ownership);
      && failures != []
      && failures[|failures| - 1].at - failures[0].at >= OWNERSHIP_LOSS_GRACE
      && (forall e | e in failures :: e.DnsSeen? && e.verified && SpeaksFor(e, ClaimVersion(row)))
  {
  }

  lemma SuspendingPass(row: Row, log: seq<Entry>, phase: Phase, fast: bool, now: Time)
    requires RowInv(row) && ChecksInv(row, log) && row.deletedAt.None? && !row.status.Suspended?
    requires phase.Queried? && ClaimVersion(row) == ClaimVersion(phase.seen)
    requires ApplyPass(row, phase, fast, now).Success? && ApplyPass(row, phase, fast, now).value.row.status.Suspended?
    ensures HasVerifiedClaim(row) && GraceIsOver(row, now)
    ensures var entry := ApplyPass(row, phase, fast, now).value.entry;
      && entry.DnsSeen? && entry.at == now && entry.verified
      && Some(entry.version) == ClaimVersion(row) && !entry.ownership.Passes()
  {
    var ownership, routing := OwnershipOutcome(phase.dns, phase.seen), RoutingOutcome(phase.dns, phase.seen);
    if row.status.Ready? {
      ReadyHasNoOwnershipFailures(row, log);
    }
    SuspensionRule(row, ownership, routing, fast, now);
  }

  lemma SuspendingStep(s: State, a: Action)
    requires Inv(s) && !s.row.status.Suspended? && Step(s, a).row.status.Suspended?
    ensures var failures := Failures(Step(s, a).log, Ownership);
      && HasVerifiedClaim(s.row)
      && failures != []
      && failures[|failures| - 1].at - failures[0].at >= OWNERSHIP_LOSS_GRACE
      && (forall e | e in failures :: e.DnsSeen? && e.verified && SpeaksFor(e, ClaimVersion(s.row)))
  {
    OnlyPassesSuspend(s, a);
    var phase := s.workers[a.worker];
    SuspendingPass(s.row, s.log, phase, a.fast, a.now);
    FailuresSpanTheGrace(s.row, s.log, ApplyPass(s.row, phase, a.fast, a.now).value.entry);
  }

  /**
   * A domain becomes suspended only at the end of at least 24 hours in which every ownership
   * observation failed, all of them against the one claim that is live and was verified throughout.
   */
  lemma SuspendedOnlyAfterADayOfFailures(r: Registration, actions: seq<Action>, a: Action)
    requires !Run(Begin(r), actions).row.status.Suspended?
    requires Step(Run(Begin(r), actions), a).row.status.Suspended?
    ensures var s := Run(Begin(r), actions);
      var failures := Failures(Step(s, a).log, Ownership);
      && HasVerifiedClaim(s.row)
      && failures != []
      && failures[|failures| - 1].at - failures[0].at >= OWNERSHIP_LOSS_GRACE
      && (forall e | e in failures :: e.DnsSeen? && e.verified && SpeaksFor(e, ClaimVersion(s.row)))
  {
    RunInv(r, actions);
    SuspendingStep(Run(Begin(r), actions), a);
  }

  // --- late results and deletion --------------------------------------------------------------------

  lemma OvertakenCommit(s: State, worker: nat, phase: Phase, fast: bool, now: Time)
    requires phase.Queried? && (s.row.deletedAt.Some? || ClaimVersion(s.row) != ClaimVersion(phase.seen))
    ensures var after := DoCommitDns(s, worker, phase, fast, now);
      after.log == s.log && Rescheduled(s.row, after.row)
  {
  }

  lemma OvertakenVersion(seen: Row, row: Row)
    requires RowInv(seen) && seen.deletedAt.None? && Grown(seen, row) && RowInv(row) && row.deletedAt.None?
    requires |seen.claims| < |row.claims|
    ensures ClaimVersion(row) != ClaimVersion(seen)
  {
  }

  /** Results of a pass that was overtaken by a re-issue change no status, claim or check result. */
  lemma OvertakenPassIsDiscarded(r: Registration, actions: seq<Action>, worker: nat, fast: bool, now: Time)
    requires var s := Run(Begin(r), actions);
      && worker in s.workers && s.workers[worker].Queried?
      && |s.workers[worker].seen.claims| < |s.row.claims|
    ensures var s := Run(Begin(r), actions);
      var after := Step(s, CommitDns(worker, fast, now));
      after.log == s.log && Rescheduled(s.row, after.row)
  {
    RunInv(r, actions);
    OvertakenStep(Run(Begin(r), actions), worker, fast, now);
  }

  lemma CommitIs(s: State, worker: nat, fast: bool, now: Time)
    requires worker in s.workers && s.workers[worker].Queried?
    ensures Step(s, CommitDns(worker, fast, now)) == DoCommitDns(s, worker, s.workers[worker], fast, now)
  {
  }

  lemma OvertakenStep(s: State, worker: nat, fast: bool, now: Time)
    requires Inv(s) && worker in s.workers && s.workers[worker].Queried?
    requires |s.workers[worker].seen.claims| < |s.row.claims|
    ensures var after := Step(s, CommitDns(worker, fast, now));
      after.log == s.log && Rescheduled(s.row, after.row)
  {
    OvertakenWorker(s, worker);
    CommitIs(s, worker, fast, now);
    OvertakenCommit(s, worker, s.workers[worker], fast, now);
  }

  /** A worker that read the row before a later claim was issued holds another version. */
  lemma OvertakenWorker(s: State, worker: nat)
    requires Inv(s) && worker in s.workers && (s.workers[worker].Queried? || s.workers[worker].Probed?)
    requires |s.workers[worker].seen.claims| < |s.row.claims|
    ensures s.row.deletedAt.Some? || ClaimVersion(s.row) != ClaimVersion(s.workers[worker].seen)
  {
    assert PhaseInv(s.workers[worker], s.row);
    if s.row.deletedAt.None? {
      OvertakenVersion(s.workers[worker].seen, s.row);
    }
  }

  /** Certificate and origin results of a worker that a re-issue overtook leave the row and the history alone. */
  lemma OvertakenProbeIsDiscarded(r: Registration, actions: seq<Action>, worker: nat, now: Time)
    requires var s := Run(Begin(r), actions);
      && worker in s.workers && s.workers[worker].Probed?
      && |s.workers[worker].seen.claims| < |s.row.claims|
    ensures var s := Run(Begin(r), actions);
      var after := Step(s, CommitEdge(worker, now));
      after.log == s.log && after.row == s.row
  {
    RunInv(r, actions);
    OvertakenProbe(Run(Begin(r), actions), worker, now);
  }

  lemma OvertakenProbe(s: State, worker: nat, now: Time)
    requires Inv(s) && worker in s.workers && s.workers[worker].Probed?
    requires |s.workers[worker].seen.claims| < |s.row.claims|
    ensures var after := Step(s, CommitEdge(worker, now));
      after.log == s.log && after.row == s.row
  {
    OvertakenWorker(s, worker);
    OvertakenEdgeCommit(s, worker, s.workers[worker], now);
  }

  lemma OvertakenEdgeCommit(s: State, worker: nat, phase: Phase, now: Time)
    requires phase.Probed? && (s.row.deletedAt.Some? || ClaimVersion(s.row) != ClaimVersion(phase.seen))
    ensures DoCommitEdge(s, worker, phase, now) == Leave(s, worker)
  {
  }

  lemma DeletedWorkerStep(s: State, a: Action, worker: nat, phase: Phase)
    requires s.row.deletedAt.Some?
    ensures var after := WorkerStep(s, a, worker, phase);
      after.log == s.log && Rescheduled(s.row, after.row)
  {
    if !MovesTheRow(a, phase) {
      QuietStep(s, a, worker, phase);
    } else if a.TakeLease? {
      LeaseReschedules(s, worker, phase.types, phase.now);
    } else if a.CommitDns? {
      OvertakenCommit(s, worker, phase, a.fast, a.now);
    } else {
      OvertakenEdgeCommit(s, worker, phase, a.now);
    }
  }

  lemma DeletedStep(s: State, a: Action)
    requires s.row.deletedAt.Some?
    ensures Step(s, a).log == s.log && Rescheduled(s.row, Step(s, a).row)
  {
    if !IsCall(a) && !a.FindDue? && a.worker in s.workers {
      DeletedWorkerStep(s, a, a.worker, s.workers[a.worker]);
    }
  }

  /** After a deletion nothing but a lease ever changes the row again. */
  lemma {:induction false} DeletedIsFinal(r: Registration, actions: seq<Action>, more: seq<Action>)
    requires Run(Begin(r), actions).row.deletedAt.Some?
    ensures var s := Run(Begin(r), actions);
      var after := Run(s, more);
      after.log == s.log && after.row.checks.ownership.Some? && Rescheduled(s.row, after.row)
  {
    RunInv(r, actions);
    StaysDeleted(Run(Begin(r), actions), more);
  }

  lemma {:induction false} StaysDeleted(s: State, more: seq<Action>)
    requires Inv(s) && s.row.deletedAt.Some?
    ensures var after := Run(s, more);
      Inv(after) && after.log == s.log && Rescheduled(s.row, after.row)
  {
    if more != [] {
      var before := Run(s, more[..|more| - 1]);
      StaysDeleted(s, more[..|more| - 1]);
      DeletedStep(before, more[|more| - 1]);
      StepInv(before, more[|more| - 1]);
    }
  }
}
