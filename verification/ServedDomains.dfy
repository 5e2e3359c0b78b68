/** The lifecycle and the edge together: which domains a request can reach an origin for. */
module ServedDomains {
  import opened Wrappers
  import opened Domains
  import opened Lifecycle
  import opened Worker
  import opened Interleaving
  import opened DomainGuarantees
  import opened DnsChecks
  import opened EdgeChecks
  import EdgeConfig
  import Gateway
  import InternalApi
  import Caddy
  import Serving
  import Json
  import Registry

  /** The four conditions `is_serveable` and the three `routable` re-check come down to the status and the owner. */
  lemma ReadyIsServeable(r: Registration, actions: seq<Action>, db: EdgeConfig.Database)
    ensures var row := Run(Begin(r), actions).row;
      && (EdgeConfig.Serveable(db, row) <==> row.status.Ready? && EdgeConfig.OwnerActive(db, row))
      && (EdgeConfig.Routable(db, row) <==>
            row.status in {Provisioning, Ready, AttentionRequired} && EdgeConfig.OwnerActive(db, row))
      && (EdgeConfig.Serveable(db, row) ==> EdgeConfig.Routable(db, row))
  {
    StatusAgreesWithChecks(r, actions);
  }

  /** The row is the outcome of a run in which its live claim was verified: by DNS that showed it, or by import. */
  ghost predicate Proven(row: Row) {
    exists r: Registration, actions: seq<Action> ::
      && row == Run(Begin(r), actions).row
      && HasVerifiedClaim(row)
      && Genuine(Run(Begin(r), actions).log, row.hostname, ActiveClaim(row).value)
  }

  lemma RoutableIsProven(row: Row, db: EdgeConfig.Database, r: Registration, actions: seq<Action>)
    requires row == Run(Begin(r), actions).row && HasVerifiedClaim(row)
    ensures Proven(row)
  {
    RunInv(r, actions);
  }

  /** An origin only ever sees requests for live domains whose ownership was proven. */
  lemma OriginsOnlySeeProvenDomains(m: Caddy.Matching, db: EdgeConfig.Database, api: InternalApi.Api, trusted: bool,
                                    apps: Json.Json, s: EdgeConfig.Settings, facts: Gateway.Facts, canon: Gateway.Canon,
                                    rq: Caddy.Request)
    requires Gateway.Accepts(apps, s, facts, canon) && rq.uri.Lit?
    requires forall row | row in db.domains ::
      exists r: Registration, actions: seq<Action> :: row == Run(Begin(r), actions).row
    ensures var o := Serving.Serve(m, db, api, trusted, apps, rq);
      || o.Answered?
      || Serving.ToTheManagementApi(m, s, facts, rq, o)
      || (&& Serving.ToAnOrigin(db, api, facts, rq, o)
          && exists row :: row in db.domains && row.deletedAt.None? && Proven(row)
               && Some(row.hostname) == api.canon(api.canon(InternalApi.HostName(rq.host)).value))
  {
    Serving.OnlyAssertedRequestsReachOrigins(m, db, api, trusted, apps, s, facts, canon, rq);
    var o := Serving.Serve(m, db, api, trusted, apps, rq);
    if Serving.ToAnOrigin(db, api, facts, rq, o) {
      var i := InternalApi.FindLive(db.domains, api.canon(api.canon(InternalApi.HostName(rq.host)).value).value);
      var row := db.domains[i];
      assert row in db.domains;
      var r: Registration, actions: seq<Action> :| row == Run(Begin(r), actions).row;
      RoutableIsProven(row, db, r, actions);
    }
  }

  lemma PassEvolves(row: Row, phase: Phase, fast: bool, now: Time)
    requires RowInv(row) && row.deletedAt.None? && phase.Queried? && ApplyPass(row, phase, fast, now).Success?
    ensures Registry.Evolves(row, ApplyPass(row, phase, fast, now).value.row)
  {
    ApplyDnsKeeps(row, OwnershipOutcome(phase.dns, phase.seen), RoutingOutcome(phase.dns, phase.seen), fast, now);
  }

  lemma CommitEvolves(s: State, worker: nat, phase: Phase, fast: bool, now: Time)
    requires RowInv(s.row) && phase.Queried?
    ensures Registry.Evolves(s.row, DoCommitDns(s, worker, phase, fast, now).row)
  {
    if s.row.deletedAt.None? && ApplyPass(s.row, phase, fast, now).Success? {
      PassEvolves(s.row, phase, fast, now);
    }
  }

  lemma CommitEdgeEvolves(s: State, worker: nat, phase: Phase, now: Time)
    requires RowInv(s.row) && phase.Probed? && !phase.certificate.status.Pending? && !phase.origin.status.Pending?
    ensures Registry.Evolves(s.row, DoCommitEdge(s, worker, phase, now).row)
  {
    if s.row.deletedAt.None? && CertificateAuthorized(s.row, s.ownerActive) {
      ApplyEdgeKeeps(s.row, phase.certificate, phase.origin, now);
    }
  }

  lemma ReissueEvolves(s: State, seed: Seed, target: string, now: Time)
    requires RowInv(s.row)
    ensures Registry.Evolves(s.row, DoReissue(s, seed, target, now).row)
  {
    if s.row.deletedAt.None? && FreshId(s.row, seed.id) {
      ReissueKeeps(s.row, seed, target, now);
    }
  }

  lemma WorkerEvolves(s: State, a: Action, worker: nat, phase: Phase)
    requires RowInv(s.row) && PhaseInv(phase, s.row)
    ensures Registry.Evolves(s.row, WorkerStep(s, a, worker, phase).row)
  {
    if !MovesTheRow(a, phase) {
      QuietStep(s, a, worker, phase);
    } else if a.CommitDns? {
      CommitEvolves(s, worker, phase, a.fast, a.now);
    } else if a.CommitEdge? {
      CommitEdgeEvolves(s, worker, phase, a.now);
    } else {
      LeaseReschedules(s, worker, phase.types, phase.now);
    }
  }

  lemma CallEvolves(s: State, a: Action)
    requires RowInv(s.row) && IsCall(a)
    ensures Registry.Evolves(s.row, Step(s, a).row)
  {
    if a.Reissue? {
      ReissueEvolves(s, a.seed, a.target, a.now);
    }
  }

  /** Every step of the worker and the API is one of the changes the registry's invariants allow for. */
  lemma LifecycleEvolves(r: Registration, actions: seq<Action>, a: Action)
    ensures Registry.Evolves(Run(Begin(r), actions).row, Step(Run(Begin(r), actions), a).row)
  {
    RunInv(r, actions);
    var s := Run(Begin(r), actions);
    StepEvolves(s, a);
  }

  lemma StepEvolves(s: State, a: Action)
    requires Inv(s)
    ensures Registry.Evolves(s.row, Step(s, a).row)
  {
    if IsCall(a) {
      CallEvolves(s, a);
    } else if !a.FindDue? && a.worker in s.workers {
      assert PhaseInv(s.workers[a.worker], s.row);
      WorkerEvolves(s, a, a.worker, s.workers[a.worker]);
    }
  }
}
