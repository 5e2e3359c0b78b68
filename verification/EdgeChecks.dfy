/** The certificate and origin checks and the readiness rule (`app/services/edge_checks.py`). */
module EdgeChecks {
  import opened Wrappers
  import opened Domains
  import opened DnsChecks

  const DAY: Time := 24 * HOUR
  const CERTIFICATE_EXPIRY_WARNING: Time := 7 * DAY

  // What the readiness probe of a hostname saw.
  datatype CertificateProbe =
    | CertificateProbeFailed(code: string)
    | CertificateSeen(status: int, fromThisEdge: bool, notBefore: Option<Time>, notAfter: Time)

  // What the workspace path answered through the edge.
  datatype WorkspaceProbe =
    | WorkspaceProbeFailed(code: string)
    | WorkspaceSeen(status: int, reference: Option<string>, applicationId: Option<nat>)

  // The parts of the owning application the edge checks read.
  datatype Owner = Owner(active: bool, hasServingOrigin: bool, workspaceProbe: bool)

  predicate CertificateAuthorized(row: Row, applicationActive: bool) {
    && row.deletedAt.None?
    && row.status !in {PendingDns, Suspended, Deleting}
    && applicationActive
    && HasVerifiedClaim(row)
  }

  /** A third of a duration, to the nearest microsecond. */
  function Third(duration: Time): Time {
    (duration + 1) / 3
  }

  function ExpiryWarning(probe: CertificateProbe): Time
    requires probe.CertificateSeen?
  {
    if probe.notBefore.Some? && Third(probe.notAfter - probe.notBefore.value) < CERTIFICATE_EXPIRY_WARNING
    then Third(probe.notAfter - probe.notBefore.value)
    else CERTIFICATE_EXPIRY_WARNING
  }

  function CertificateOutcome(httpsDisabled: bool, probe: CertificateProbe, now: Time): Outcome {
    if httpsDisabled then PASSES
    else
      match probe
      case CertificateProbeFailed(code) => Fails(code)
      case CertificateSeen(status, fromThisEdge, _, notAfter) =>
        if status != 204 || !fromThisEdge then Fails("edge_not_reached")
        else if notAfter <= now then Fails("certificate_expired")
        else if notAfter - now < ExpiryWarning(probe) then Fails("certificate_expiring")
        else PASSES
  }

  function OriginOutcome(row: Row, owner: Owner, probe: WorkspaceProbe): Outcome {
    if !owner.hasServingOrigin then Fails("origin_not_ready")
    else if !owner.workspaceProbe then PASSES
    else
      match probe
      case WorkspaceProbeFailed(code) => Fails(code)
      case WorkspaceSeen(status, reference, applicationId) =>
        if status != 200 then Fails("workspace_probe_failed")
        else if reference.None? then Fails("workspace_probe_invalid")
        else if reference.value != row.reference || (applicationId.Some? && applicationId.value != row.applicationId)
        then Fails("workspace_mismatch")
        else PASSES
  }

  /** When, exactly, the two edge checks pass. */
  lemma EdgeOutcomesMean(httpsDisabled: bool, certificate: CertificateProbe, row: Row, owner: Owner, workspace: WorkspaceProbe,
                         now: Time)
    ensures CertificateOutcome(httpsDisabled, certificate, now).Passes() <==>
      || httpsDisabled
      || (&& certificate.CertificateSeen? && certificate.status == 204 && certificate.fromThisEdge
          && certificate.notAfter > now
          && (certificate.notAfter - now >= CERTIFICATE_EXPIRY_WARNING
              || (certificate.notBefore.Some?
                  && certificate.notAfter - now >= Third(certificate.notAfter - certificate.notBefore.value))))
    ensures OriginOutcome(row, owner, workspace).Passes() <==>
      && owner.hasServingOrigin
      && (owner.workspaceProbe ==>
           && workspace.WorkspaceSeen? && workspace.status == 200 && workspace.reference == Some(row.reference)
           && (workspace.applicationId.None? || workspace.applicationId.value == row.applicationId))
  {
  }

  /** Why they fail: which error code means what. */
  lemma EdgeErrorsMean(httpsDisabled: bool, certificate: CertificateProbe, row: Row, owner: Owner, workspace: WorkspaceProbe,
                       now: Time)
    ensures var code := CertificateOutcome(httpsDisabled, certificate, now).errorCode;
      && (code.None? <==> CertificateOutcome(httpsDisabled, certificate, now).Passes())
      && (!httpsDisabled && certificate.CertificateProbeFailed? ==> code == Some(certificate.code))
      && (!httpsDisabled && certificate.CertificateSeen? ==>
            var reached := certificate.status == 204 && certificate.fromThisEdge;
            && (code == Some("edge_not_reached") <==> !reached)
            && (code == Some("certificate_expired") <==> reached && certificate.notAfter <= now)
            && (code == Some("certificate_expiring") <==>
                  reached && certificate.notAfter > now && !CertificateOutcome(httpsDisabled, certificate, now).Passes()))
    ensures var code := OriginOutcome(row, owner, workspace).errorCode;
      && (code.None? <==> OriginOutcome(row, owner, workspace).Passes())
      && (!owner.hasServingOrigin ==> code == Some("origin_not_ready"))
      && (owner.hasServingOrigin && owner.workspaceProbe && workspace.WorkspaceProbeFailed? ==> code == Some(workspace.code))
      && (owner.hasServingOrigin && owner.workspaceProbe && workspace.WorkspaceSeen? ==>
            && (code == Some("workspace_probe_failed") <==> workspace.status != 200)
            && (code == Some("workspace_probe_invalid") <==> workspace.status == 200 && workspace.reference.None?)
            && (code == Some("workspace_mismatch") <==>
                  && workspace.status == 200 && workspace.reference.Some?
                  && (workspace.reference.value != row.reference
                      || (workspace.applicationId.Some? && workspace.applicationId.value != row.applicationId))))
  {
  }

  function EdgeStatusRules(row: Row, now: Time): Result<Row, Error> {
    if row.status in {Provisioning, AttentionRequired} && HasVerifiedClaim(row) && ChecksPassing(row) then
      Transition(row, Ready, if row.status.Provisioning? then ReadinessProbePassed else Recovered, now)
    else Success(row)
  }

  function StoreEdge(row: Row, certificate: Outcome, origin: Outcome, now: Time): Result<Row, Error> {
    RecordTwo(row, Certificate, ScheduleNext(row.checks.certificate, certificate, now),
              Origin, ScheduleNext(row.checks.origin, origin, now), now)
  }

  function ApplyEdge(row: Row, certificate: Outcome, origin: Outcome, now: Time): Result<Row, Error> {
    var stored :- StoreEdge(row, certificate, origin, now);
    EdgeStatusRules(stored, now)
  }
}
