/**
 * What the stored DNS results say about DNS: each is what one pass saw of the live claim's own token or
 * target, whether it passed or failed, and however many passes, re-issues and other workers there were.
 */
module Observations {
  import opened Wrappers
  import opened Domains
  import opened Resolver
  import opened DnsChecks
  import opened Worker
  import opened Interleaving
  import ServedDomains

  /** The hostname leads to the target, and not by a CNAME record to itself. */
  ghost predicate LeadsTo(dns: Resolver, hostname: string, target: string) {
    dns.Cname(hostname) != Success(Some(hostname)) && Reaches(dns, hostname, target)
  }

  /** A pass records what DNS showed of the claim it had read, both ways. */
  ghost predicate Truthful(e: Entry, hostname: string) {
    e.DnsSeen? ==>
      && (e.ownership.Passes() <==> ShowsToken(e.dns, hostname, e.version.token))
      && (e.routing.Passes() <==> LeadsTo(e.dns, hostname, e.version.target))
  }

  ghost predicate AllTruthful(s: State) {
    forall e | e in s.log :: Truthful(e, s.row.hostname)
  }

  lemma PassIsTruthful(row: Row, phase: Phase, fast: bool, now: Time)
    requires phase.Queried? && phase.seen.hostname == row.hostname && ApplyPass(row, phase, fast, now).Success?
    ensures Truthful(ApplyPass(row, phase, fast, now).value.entry, row.hostname)
  {
    DnsOutcomesMean(phase.dns, phase.seen);
  }

  /** Of the worker's steps only a pass that is applied records something about DNS. */
  lemma WorkerStepRecords(s: State, a: Action, worker: nat, phase: Phase)
    requires Inv(s) && PhaseInv(phase, s.row)
    ensures var log := WorkerStep(s, a, worker, phase).log;
      forall e | e in log :: e in s.log || Truthful(e, s.row.hostname)
  {
    if !MovesTheRow(a, phase) {
      QuietStep(s, a, worker, phase);
    } else if a.TakeLease? {
      LeaseReschedules(s, worker, phase.types, phase.now);
    } else if a.CommitDns? {
      CommitRecords(s, worker, phase, a.fast, a.now);
    } else {
      EdgeCommitRecords(s, worker, phase, a.now);
    }
  }

  lemma CommitRecords(s: State, worker: nat, phase: Phase, fast: bool, now: Time)
    requires phase.Queried? && Held(phase.seen, s.row)
    ensures var log := DoCommitDns(s, worker, phase, fast, now).log;
      forall e | e in log :: e in s.log || Truthful(e, s.row.hostname)
  {
    if ApplyPass(s.row, phase, fast, now).Success? {
      PassIsTruthful(s.row, phase, fast, now);
    }
  }

  lemma EdgeCommitRecords(s: State, worker: nat, phase: Phase, now: Time)
    requires phase.Probed?
    ensures var log := DoCommitEdge(s, worker, phase, now).log;
      forall e | e in log :: e in s.log || !e.DnsSeen?
  {
  }

  lemma CallRecords(s: State, a: Action)
    requires IsCall(a)
    ensures forall e | e in Step(s, a).log :: e in s.log || !e.DnsSeen?
  {
  }

  lemma StepRecords(s: State, a: Action)
    requires Inv(s)
    ensures forall e | e in Step(s, a).log :: e in s.log || Truthful(e, s.row.hostname)
  {
    if IsCall(a) {
      CallRecords(s, a);
    } else if !a.FindDue? && a.worker in s.workers {
      assert PhaseInv(s.workers[a.worker], s.row);
      WorkerStepRecords(s, a, a.worker, s.workers[a.worker]);
    }
  }

  /** Every pass ever applied recorded what DNS showed of the claim its worker had read. */
  lemma {:induction false} PassesAreTruthful(r: Registration, actions: seq<Action>)
    ensures AllTruthful(Run(Begin(r), actions))
  {
    if actions != [] {
      var before, last := Run(Begin(r), actions[..|actions| - 1]), actions[|actions| - 1];
      PassesAreTruthful(r, actions[..|actions| - 1]);
      RunInv(r, actions[..|actions| - 1]);
      StepRecords(before, last);
      ServedDomains.StepEvolves(before, last);
    }
  }

  lemma {:induction false} WordFrom(log: seq<Entry>, check: CheckType) returns (e: Entry)
    requires LastWord(log, check).SeenByCheck?
    ensures e in log && Says(e, check) == Some(LastWord(log, check))
  {
    var last := log[|log| - 1];
    if Says(last, check).Some? {
      e := last;
    } else {
      e := WordFrom(log[..|log| - 1], check);
    }
  }

  /** The stored result is that of a recorded pass over the live claim, and DNS showed the check's condition exactly if it passed. */
  ghost predicate ShownByDns(s: State, stored: Check, shows: Resolver -> bool) {
    exists e | e in s.log ::
      && e.DnsSeen? && Some(e.version) == ClaimVersion(s.row) && stored.observedAt == Some(e.at)
      && (stored.status.Passing? <==> shows(e.dns))
  }

  /**
   * In every reachable state of a live domain, a stored ownership or routing result that is not pending
   * is what one pass saw: it passes exactly if DNS then showed the live claim's token, or led to its
   * target. An ownership result may instead come from the import of the claim.
   */
  lemma StoredResultsAreWhatDnsShowed(r: Registration, actions: seq<Action>)
    ensures var s := Run(Begin(r), actions);
      s.row.deletedAt.None? ==>
        && ActiveClaim(s.row).Some? && s.row.checks.ownership.Some? && s.row.checks.routing.Some?
        && var claim, hostname := ActiveClaim(s.row).value, s.row.hostname;
        && (|| s.row.checks.ownership.value.status.Pending?
            || LastWord(s.log, Ownership).SeenByImport?
            || ShownByDns(s, s.row.checks.ownership.value, (dns: Resolver) => ShowsToken(dns, hostname, claim.token)))
        && (|| s.row.checks.routing.value.status.Pending?
            || ShownByDns(s, s.row.checks.routing.value, (dns: Resolver) => LeadsTo(dns, hostname, claim.cnameTarget)))
  {
    RunInv(r, actions);
    PassesAreTruthful(r, actions);
    var s := Run(Begin(r), actions);
    if s.row.deletedAt.None? {
      var ownership, routing := s.row.checks.ownership.value, s.row.checks.routing.value;
      if !ownership.status.Pending? && !LastWord(s.log, Ownership).SeenByImport? {
        var e := WordFrom(s.log, Ownership);
        assert Truthful(e, s.row.hostname);
      }
      if !routing.status.Pending? {
        var e := WordFrom(s.log, Routing);
        assert Truthful(e, s.row.hostname);
      }
    }
  }
}
