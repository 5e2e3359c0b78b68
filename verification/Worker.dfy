/**
 * The checks worker (`app/dns/worker.py`) as a state machine over one domain: any number of
 * workers, each between two of its transactions, while the API re-issues, rechecks and deletes.
 * Every transaction is one atomic step; a network phase is the gap between two steps. Leases only
 * move `nextCheckAt`; what keeps a late worker from writing is the claim version it read.
 */
module Worker {
  import opened Wrappers
  import opened Domains
  import opened Resolver
  import opened DnsChecks
  import opened EdgeChecks

  const LEASE: Time := 2 * MINUTE

  // The live claim a worker's observations are made against.
  datatype Version = Version(id: nat, token: string, target: string)

  function VersionOf(claim: Claim): Version {
    Version(claim.id, claim.token, claim.cnameTarget)
  }

  function ClaimVersion(row: Row): Option<Version> {
    var claim := ActiveClaim(row);
    if claim.Some? then Some(VersionOf(claim.value)) else None
  }

  // History of what was applied to the checks; no step reads it. An entry's version is that of the
  // claim its worker had read before it queried or probed, whatever claim is live when it is applied.
  datatype Entry =
    | DnsSeen(at: Time, version: Version, verified: bool, dns: Resolver, ownership: Outcome, routing: Outcome)
    | EdgeSeen(at: Time, version: Version, certificate: Outcome, origin: Outcome)
    | ImportSeen(at: Time, version: Version)
    | Reissued(at: Time)

  // Where a worker is between two transactions; `seen` is the row it holds in memory.
  datatype Phase =
    | FoundDue(types: set<CheckType>, now: Time)
    | Leased(types: set<CheckType>)
    | Loaded(seen: Row, types: set<CheckType>)
    | Queried(seen: Row, types: set<CheckType>, dns: Resolver)
    | DnsDone(seen: Row, edgeDue: bool)
    | Probing(seen: Row)
    | Probed(seen: Row, certificate: Outcome, origin: Outcome)

  datatype State = State(row: Row, workers: map<nat, Phase>, log: seq<Entry>, ownerActive: bool)

  datatype Action =
    | FindDue(worker: nat, now: Time)
    | TakeLease(worker: nat)
    | Load(worker: nat)
    | QueryDns(worker: nat, dns: Resolver)
    | CommitDns(worker: nat, fast: bool, now: Time)
    | Reread(worker: nat, refreshed: bool, ownerActive: bool)
    | Probe(worker: nat, httpsDisabled: bool, owner: Owner,
            certificate: CertificateProbe, workspace: WorkspaceProbe, now: Time)
    | CommitEdge(worker: nat, now: Time)
    | Stop(worker: nat)
    | Reissue(seed: Seed, target: string, now: Time)
    | Delete(now: Time)
    | Recheck(budgetWait: Option<int>, now: Time)
    | ConnectReturned(at: Time)
    | SetOwnerActive(active: bool)

  // --- leases ------------------------------------------------------------------------------------

  predicate IsDue(check: Option<Check>, now: Time) {
    check.Some? && (check.value.nextCheckAt.None? || check.value.nextCheckAt.value <= now)
  }

  function DueTypes(checks: Checks, now: Time): set<CheckType> {
    set c: CheckType | c in CHECK_TYPES && IsDue(checks.Get(c), now)
  }

  function LeaseCheck(check: Option<Check>, wanted: bool, force: bool, now: Time): Option<Check> {
    if wanted && ((force && check.Some?) || IsDue(check, now)) then Checks.DueAt(check, now + LEASE) else check
  }

  function LeaseChecks(checks: Checks, types: set<CheckType>, force: bool, now: Time): Checks {
    Checks(LeaseCheck(checks.ownership, Ownership in types, force, now),
           LeaseCheck(checks.routing, Routing in types, force, now),
           LeaseCheck(checks.certificate, Certificate in types, force, now),
           LeaseCheck(checks.origin, Origin in types, force, now))
  }

  /** Some check of the given types is there to be leased. */
  predicate CanLease(checks: Checks, types: set<CheckType>, force: bool, now: Time) {
    exists c | c in types :: IsDue(checks.Get(c), now) || (force && checks.Get(c).Some?)
  }

  const DNS_TYPES: set<CheckType> := {Ownership, Routing}
  const EDGE_TYPES: set<CheckType> := {Certificate, Origin}

  function MakeDue(check: Option<Check>, at: Time): Option<Check> {
    if check.Some? && (check.value.nextCheckAt.None? || check.value.nextCheckAt.value > at)
    then Checks.DueAt(check, at) else check
  }

  // --- one transaction or network phase at a time ----------------------------------------------

  function Leave(s: State, worker: nat): State {
    s.(workers := s.workers - {worker})
  }

  function Enter(s: State, worker: nat, phase: Phase): State {
    s.(workers := s.workers[worker := phase])
  }

  function DoTakeLease(s: State, worker: nat, types: set<CheckType>, now: Time): State {
    if CanLease(s.row.checks, types, false, now) then
      Enter(s.(row := s.row.(checks := LeaseChecks(s.row.checks, types, false, now))), worker, Leased(types))
    else Leave(s, worker)
  }

  function DoLoad(s: State, worker: nat, types: set<CheckType>): State {
    if s.row.deletedAt.Some? || s.row.status.Deleting? then Leave(s, worker)
    else Enter(s, worker, Loaded(s.row, types))
  }

  /** A status change claims the edge checks for this run, due or not. */
  function AfterDns(applied: Row, follow: bool, now: Time): Row {
    if follow then applied.(checks := LeaseChecks(applied.checks, EDGE_TYPES, true, now)) else applied
  }

  // What a pass leaves behind: the row, its history entry, and whether the edge checks run too.
  datatype Applied = Applied(row: Row, entry: Entry, edgeDue: bool)

  function ApplyPass(row: Row, phase: Phase, fast: bool, now: Time): Result<Applied, Error>
    requires phase.Queried?
  {
    var version := ClaimVersion(phase.seen);
    if version.None? then Failure(InvalidStatusTransition)
    else
      var ownership, routing := OwnershipOutcome(phase.dns, phase.seen), RoutingOutcome(phase.dns, phase.seen);
      var applied :- ApplyDns(row, ownership, routing, fast, now);
      var edgeDue := phase.types * EDGE_TYPES != {};
      var follow := !edgeDue && applied.status != phase.seen.status && CanLease(applied.checks, EDGE_TYPES, true, now);
      var entry := DnsSeen(now, version.value, HasVerifiedClaim(row), phase.dns, ownership, routing);
      Success(Applied(AfterDns(applied, follow, now), entry, edgeDue || follow))
  }

  /** The DNS results, applied under the application lock to the row as it is now. */
  function DoCommitDns(s: State, worker: nat, phase: Phase, fast: bool, now: Time): State
    requires phase.Queried?
  {
    var row := s.row;
    if row.deletedAt.Some? || row.status.Deleting? then Leave(s, worker)
    else if ClaimVersion(row) != ClaimVersion(phase.seen) then
      var due := row.checks.(ownership := Checks.DueAt(row.checks.ownership, now),
                             routing := Checks.DueAt(row.checks.routing, now));
      Leave(s.(row := row.(checks := due)), worker)
    else
      match ApplyPass(row, phase, fast, now)
      case Failure(_) => Leave(s, worker)
      case Success(applied) =>
        Enter(s.(row := applied.row, log := s.log + [applied.entry]), worker, DnsDone(applied.row, applied.edgeDue))
  }

  /** The read between the phases: it notices a deletion, but may keep the row already in memory. */
  function DoReread(s: State, worker: nat, seen: Row, edgeDue: bool, refreshed: bool, ownerActive: bool): State {
    var held := if refreshed then s.row else seen;
    if s.row.deletedAt.Some? || !edgeDue || !CertificateAuthorized(held, ownerActive) then Leave(s, worker)
    else Enter(s, worker, Probing(held))
  }

  function DoCommitEdge(s: State, worker: nat, phase: Phase, now: Time): State
    requires phase.Probed?
  {
    var row := s.row;
    if row.deletedAt.Some? || row.status.Deleting? || ClaimVersion(row) != ClaimVersion(phase.seen)
       || !CertificateAuthorized(row, s.ownerActive) then Leave(s, worker)
    else
      var applied := ApplyEdge(row, phase.certificate, phase.origin, now);
      if applied.Failure? || ClaimVersion(phase.seen).None? then Leave(s, worker)
      else
        var entry := EdgeSeen(now, ClaimVersion(phase.seen).value, phase.certificate, phase.origin);
        Leave(s.(row := applied.value, log := s.log + [entry]), worker)
  }

  function DoReissue(s: State, seed: Seed, target: string, now: Time): State {
    var reissued := ReissueClaim(s.row, seed, target, now);
    if reissued.Failure? || exists c | c in s.row.claims :: c.id == seed.id then s
    else s.(row := reissued.value, log := s.log + [Reissued(now)])
  }

  function DoRecheck(s: State, budgetWait: Option<int>, now: Time): State {
    var rechecked := RequestRecheck(s.row, budgetWait, now);
    if rechecked.Failure? then s else s.(row := rechecked.value)
  }

  function DoConnectReturned(s: State, at: Time): State {
    if s.row.deletedAt.Some? then s
    else
      var checks := s.row.checks;
      s.(row := s.row.(checks := checks.(ownership := MakeDue(checks.ownership, at),
                                         routing := MakeDue(checks.routing, at))))
  }

  /** A step of the worker `worker`, which is in `phase`. */
  function WorkerStep(s: State, a: Action, worker: nat, phase: Phase): State {
    match (a, phase)
    case (TakeLease(_), FoundDue(types, now)) => DoTakeLease(s, worker, types, now)
    case (Load(_), Leased(types)) => DoLoad(s, worker, types)
    case (QueryDns(_, dns), Loaded(seen, types)) =>
      if types * DNS_TYPES != {} then Enter(s, worker, Queried(seen, types, dns)) else s
    case (CommitDns(_, fast, now), Queried(_, _, _)) => DoCommitDns(s, worker, phase, fast, now)
    case (Reread(_, refreshed, ownerActive), Loaded(seen, types)) =>
      if types * DNS_TYPES != {} then s
      else DoReread(s, worker, seen, types * EDGE_TYPES != {}, refreshed, ownerActive)
    case (Reread(_, refreshed, ownerActive), DnsDone(seen, edgeDue)) =>
      DoReread(s, worker, seen, edgeDue, refreshed, ownerActive)
    case (Probe(_, httpsDisabled, owner, certificate, workspace, now), Probing(seen)) =>
      Enter(s, worker, Probed(seen, CertificateOutcome(httpsDisabled, certificate, now),
                              OriginOutcome(seen, owner, workspace)))
    case (CommitEdge(_, now), Probed(_, _, _)) => DoCommitEdge(s, worker, phase, now)
    case (Stop(_), _) => Leave(s, worker)
    case _ => s
  }

  function Step(s: State, a: Action): State {
    match a
    case Reissue(seed, target, now) => DoReissue(s, seed, target, now)
    case Delete(now) => s.(row := DeleteDomain(s.row, now))
    case Recheck(budgetWait, now) => DoRecheck(s, budgetWait, now)
    case ConnectReturned(at) => DoConnectReturned(s, at)
    case SetOwnerActive(active) => s.(ownerActive := active)
    case FindDue(worker, now) =>
      if worker in s.workers || DueTypes(s.row.checks, now) == {} then s
      else Enter(s, worker, FoundDue(DueTypes(s.row.checks, now), now))
    case _ => if a.worker in s.workers then WorkerStep(s, a, a.worker, s.workers[a.worker]) else s
  }

  function Run(s: State, actions: seq<Action>): State {
    if actions == [] then s
    else Step(Run(s, actions[..|actions| - 1]), actions[|actions| - 1])
  }

  // How a domain came to be: registered, or imported with or without its ownership grandfathered.
  datatype Registration = Registration(
    applicationId: nat, hostname: string, reference: string,
    seed: Seed, target: string, imported: Option<bool>, now: Time)

  function Begin(r: Registration): State {
    var created := NewRow(r.applicationId, r.hostname, r.reference, r.seed, r.target, r.now);
    if r.imported.None? then State(created, map[], [], true)
    else
      var row := ImportRow(created, r.imported.value, r.now);
      State(if row.Success? then row.value else created, map[],
            if row.Success? && r.imported.value then [ImportSeen(r.now, Version(r.seed.id, r.seed.token, r.target))] else [],
            true)
  }
}
