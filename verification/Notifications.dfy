/**
 * Which notification an event queues (`app/services/webhooks.py`), read off the event log of any run: one
 * for each change a subscriber can ask for, of the right kind, and nothing else.
 */
module Notifications {
  import opened Wrappers
  import opened Domains
  import opened DnsChecks
  import opened EdgeChecks
  import opened Lifecycle
  import opened Worker
  import opened Interleaving
  import opened PassRules
  import Webhooks

  // --- what the log of a domain holds -----------------------------------------------------------------

  /** What every event after the first is: a status change leads elsewhere, and to ready with the reason its origin has. */
  predicate Fits(kind: EventKind) {
    && !kind.DomainCreated?
    && (kind.StatusChanged? ==>
          && kind.from != kind.to
          && (kind.to.Ready? ==>
                || (kind.from.Provisioning? && kind.reason.ReadinessProbePassed?)
                || (kind.from.AttentionRequired? && kind.reason.Recovered?)))
  }

  /** `after` has the events of `before` and then some that fit. */
  ghost predicate Extends(before: Row, after: Row) {
    && |before.events| <= |after.events| && after.events[..|before.events|] == before.events
    && forall i | |before.events| <= i < |after.events| :: Fits(after.events[i].kind)
  }

  lemma ExtendsThen(a: Row, b: Row, c: Row)
    requires Extends(a, b) && Extends(b, c)
    ensures Extends(a, c)
  {
    assert c.events[..|a.events|] == c.events[..|b.events|][..|a.events|];
    forall i | |a.events| <= i < |b.events|
      ensures Fits(c.events[i].kind)
    {
      assert c.events[i] == c.events[..|b.events|][i];
    }
  }

  lemma RecordExtends(row: Row, kind: EventKind, now: Time)
    requires Fits(kind)
    ensures Extends(row, Record(row, kind, now))
  {
  }

  ghost predicate AllFit(kinds: seq<EventKind>) {
    forall i | 0 <= i < |kinds| :: Fits(kinds[i])
  }

  lemma FitTogether(first: seq<EventKind>, second: seq<EventKind>)
    requires AllFit(first) && AllFit(second)
    ensures AllFit(first + second)
  {
  }

  lemma RecordedExtends(before: Row, after: Row, kinds: seq<EventKind>)
    requires Recorded(before, after, kinds) && AllFit(kinds)
    ensures Extends(before, after)
  {
    forall i | |before.events| <= i < |after.events|
      ensures Fits(after.events[i].kind)
    {
      assert after.events[|before.events| + (i - |before.events|)].kind == kinds[i - |before.events|];
    }
  }

  lemma StoredKindsFit(row: Row, check: CheckType, outcome: Outcome, ready: bool)
    ensures AllFit(StoredKinds(row, check, outcome, ready))
  {
  }

  lemma BothStoredFit(row: Row, first: CheckType, one: Outcome, second: CheckType, two: Outcome, ready: bool, still: bool)
    ensures AllFit(StoredKinds(row, first, one, ready) + StoredKinds(row, second, two, still))
  {
    StoredKindsFit(row, first, one, ready);
    StoredKindsFit(row, second, two, still);
    FitTogether(StoredKinds(row, first, one, ready), StoredKinds(row, second, two, still));
  }

  lemma DnsRuleKindsFit(row: Row, from: DomainStatus, to: DomainStatus, ownership: Outcome, routing: Outcome)
    requires to.Ready? && from != to ==> from.AttentionRequired?
    ensures AllFit(DnsRuleKinds(row, from, to, ownership, routing))
  {
  }

  lemma DnsPassExtends(row: Row, ownership: Outcome, routing: Outcome, fast: bool, now: Time)
    requires RowInv(row) && row.deletedAt.None? && !ownership.status.Pending? && !routing.status.Pending?
    ensures var after := ApplyDns(row, ownership, routing, fast, now);
      after.Success? && Extends(row, after.value)
  {
    DnsPassRule(row, ownership, routing, fast, now);
    var to := DnsPassLeadsTo(row, ownership, routing, now);
    var ready, pass := row.status.Ready?, ownership.Passes() && routing.Passes();
    var from := if ready && !pass then AttentionRequired else row.status;
    var stored := StoredKinds(row, Ownership, ownership, ready) + StoredKinds(row, Routing, routing, ready && ownership.Passes());
    BothStoredFit(row, Ownership, ownership, Routing, routing, ready, ready && ownership.Passes());
    DnsRuleKindsFit(row, from, to, ownership, routing);
    FitTogether(stored, DnsRuleKinds(row, from, to, ownership, routing));
    RecordedExtends(row, ApplyDns(row, ownership, routing, fast, now).value,
                    stored + DnsRuleKinds(row, from, to, ownership, routing));
  }

  lemma EdgePassExtends(row: Row, certificate: Outcome, origin: Outcome, now: Time)
    requires RowInv(row) && CertificateAuthorized(row, true) && !certificate.status.Pending? && !origin.status.Pending?
    ensures var after := ApplyEdge(row, certificate, origin, now);
      after.Success? && Extends(row, after.value)
  {
    EdgePassRule(row, certificate, origin, now);
    var ready, pass := row.status.Ready?, certificate.Passes() && origin.Passes() && DnsPassing(row);
    var stored := StoredKinds(row, Certificate, certificate, ready) + StoredKinds(row, Origin, origin, ready && certificate.Passes());
    var turn := if pass && !ready
                then [StatusChanged(row.status, Ready, if row.status.Provisioning? then ReadinessProbePassed else Recovered)] else [];
    BothStoredFit(row, Certificate, certificate, Origin, origin, ready, ready && certificate.Passes());
    assert AllFit(turn);
    FitTogether(stored, turn);
    RecordedExtends(row, ApplyEdge(row, certificate, origin, now).value, stored + turn);
  }

  lemma {:induction false} ResetsExtend(row: Row, types: seq<CheckType>, now: Time)
    ensures ResetChecks(row, types, now).Success? ==> Extends(row, ResetChecks(row, types, now).value)
    decreases |types|
  {
    if types != [] && ResetChecks(row, types, now).Success? {
      var first := RecordCheck(row, types[0], RESET, now).value;
      ResetsExtend(first, types[1..], now);
      ExtendsThen(row, first, ResetChecks(row, types, now).value);
    }
  }

  lemma RevokeExtends(row: Row, now: Time)
    ensures Extends(row, RevokeLiveClaim(row, now))
  {
  }

  lemma BackExtends(row: Row, now: Time)
    ensures BackToPending(row, now).Success? ==> Extends(row, BackToPending(row, now).value)
  {
  }

  lemma ReissueExtends(row: Row, seed: Seed, target: string, now: Time)
    ensures ReissueClaim(row, seed, target, now).Success? ==> Extends(row, ReissueClaim(row, seed, target, now).value)
  {
    if ReissueClaim(row, seed, target, now).Success? {
      var revoked := RevokeLiveClaim(row, now);
      var reset := ResetChecks(revoked, CHECK_TYPES, now).value;
      var moved := BackToPending(reset, now).value;
      RevokeExtends(row, now);
      ResetsExtend(revoked, CHECK_TYPES, now);
      BackExtends(reset, now);
      ExtendsThen(row, revoked, reset);
      ExtendsThen(row, reset, moved);
      ExtendsThen(row, moved, Domains.IssueClaim(moved, seed, target, now));
    }
  }

  lemma DeleteExtends(row: Row, now: Time)
    ensures Extends(row, DeleteDomain(row, now))
  {
    if row.deletedAt.None? {
      var tombstone := row.(status := Deleting, deletedAt := Some(now));
      RevokeExtends(tombstone, now);
      ExtendsThen(tombstone, RevokeLiveClaim(tombstone, now), DeleteDomain(row, now));
    }
  }

  // --- over any run -------------------------------------------------------------------------------------

  lemma CallExtends(s: State, a: Action)
    requires IsCall(a)
    ensures Extends(s.row, Step(s, a).row)
  {
    if a.Reissue? {
      ReissueExtends(s.row, a.seed, a.target, a.now);
    } else if a.Delete? {
      DeleteExtends(s.row, a.now);
    }
  }

  lemma CommitExtends(s: State, worker: nat, phase: Phase, fast: bool, now: Time)
    requires RowInv(s.row) && phase.Queried?
    ensures Extends(s.row, DoCommitDns(s, worker, phase, fast, now).row)
  {
    if s.row.deletedAt.None? {
      DnsPassExtends(s.row, OwnershipOutcome(phase.dns, phase.seen), RoutingOutcome(phase.dns, phase.seen), fast, now);
    }
  }

  lemma CommitEdgeExtends(s: State, worker: nat, phase: Phase, now: Time)
    requires RowInv(s.row) && phase.Probed? && !phase.certificate.status.Pending? && !phase.origin.status.Pending?
    ensures Extends(s.row, DoCommitEdge(s, worker, phase, now).row)
  {
    if CertificateAuthorized(s.row, s.ownerActive) {
      EdgePassExtends(s.row, phase.certificate, phase.origin, now);
    }
  }

  lemma WorkerExtends(s: State, a: Action, worker: nat, phase: Phase)
    requires RowInv(s.row) && PhaseInv(phase, s.row)
    ensures Extends(s.row, WorkerStep(s, a, worker, phase).row)
  {
    if !MovesTheRow(a, phase) {
      QuietStep(s, a, worker, phase);
    } else if a.CommitDns? {
      CommitExtends(s, worker, phase, a.fast, a.now);
    } else if a.CommitEdge? {
      CommitEdgeExtends(s, worker, phase, a.now);
    } else {
      LeaseReschedules(s, worker, phase.types, phase.now);
    }
  }

  lemma StepExtends(s: State, a: Action)
    requires Inv(s)
    ensures Extends(s.row, Step(s, a).row)
  {
    if IsCall(a) {
      CallExtends(s, a);
    } else if !a.FindDue? && a.worker in s.workers {
      assert PhaseInv(s.workers[a.worker], s.row);
      WorkerExtends(s, a, a.worker, s.workers[a.worker]);
    }
  }

  ghost predicate LogFits(events: seq<Event>) {
    && events != [] && events[0].kind.DomainCreated?
    && forall i | 1 <= i < |events| :: Fits(events[i].kind)
  }

  lemma NewRowFits(r: Registration)
    ensures LogFits(NewRow(r.applicationId, r.hostname, r.reference, r.seed, r.target, r.now).events)
  {
  }

  lemma ImportExtends(row: Row, grandfather: bool, now: Time)
    requires RowInv(row) && row.status.PendingDns? && row.deletedAt.None? && !PassingCheck(row, Routing)
    ensures ImportRow(row, grandfather, now).Success? && Extends(row, ImportRow(row, grandfather, now).value)
  {
    ImportKeeps(row, grandfather, now);
    var recorded := Record(row, DomainImported(grandfather), now);
    RecordExtends(row, DomainImported(grandfather), now);
    if grandfather {
      ImportedUnproven(row, now);
      GrandfatherKeeps(recorded, now);
      GrandfatherExtends(recorded, now);
      ExtendsThen(row, recorded, ImportRow(row, true, now).value);
    }
  }

  lemma GrandfatherExtends(row: Row, now: Time)
    requires MarkClaimVerified(row, LegacyImport, now).Success? && row.status.PendingDns?
    ensures var verified := MarkClaimVerified(row, LegacyImport, now).value;
      var checked := RecordCheck(verified, Ownership, SEEN_BY_IMPORT, now);
      && checked.Success?
      && (Transition(checked.value, Provisioning, Imported, now).Success? ==>
            Extends(row, Transition(checked.value, Provisioning, Imported, now).value))
  {
    var verified := MarkClaimVerified(row, LegacyImport, now).value;
    var checked := RecordCheck(verified, Ownership, SEEN_BY_IMPORT, now).value;
    assert Extends(row, verified) && Extends(verified, checked);
    ExtendsThen(row, verified, checked);
    if Transition(checked, Provisioning, Imported, now).Success? {
      var moved := Transition(checked, Provisioning, Imported, now).value;
      assert Extends(checked, moved);
      ExtendsThen(row, checked, moved);
    }
  }

  lemma BeginFits(r: Registration)
    ensures LogFits(Begin(r).row.events)
  {
    NewRowFits(r);
    NewRowInv(r.applicationId, r.hostname, r.reference, r.seed, r.target, r.now);
    var created := NewRow(r.applicationId, r.hostname, r.reference, r.seed, r.target, r.now);
    if r.imported.Some? {
      assert created.checks.Get(Routing) == Some(Check(Pending, None, 0, None, None, None));
      ImportExtends(created, r.imported.value, r.now);
      FitsOn(created, ImportRow(created, r.imported.value, r.now).value);
    }
  }

  lemma {:induction false} RunFits(r: Registration, actions: seq<Action>)
    ensures LogFits(Run(Begin(r), actions).row.events)
  {
    if actions == [] {
      BeginFits(r);
    } else {
      var before := Run(Begin(r), actions[..|actions| - 1]);
      RunFits(r, actions[..|actions| - 1]);
      RunInv(r, actions[..|actions| - 1]);
      StepExtends(before, actions[|actions| - 1]);
      FitsOn(before.row, Run(Begin(r), actions).row);
    }
  }

  lemma FitsOn(before: Row, after: Row)
    requires LogFits(before.events) && Extends(before, after)
    ensures LogFits(after.events)
  {
    forall i | 0 <= i < |before.events|
      ensures after.events[i] == before.events[i]
    {
      assert after.events[..|before.events|][i] == before.events[i];
    }
  }

  // --- what the events say ------------------------------------------------------------------------------

  /** In a log that folds, every part of it folds. */
  lemma {:induction false} PartsFold(events: seq<Event>, i: nat)
    requires LogFits(events) && Fold(events).Some? && 1 <= i <= |events|
    ensures Fold(events[..i]).Some?
    decreases |events| - i
  {
    if i == |events| {
      assert events[..i] == events;
    } else {
      PartsFold(events, i + 1);
      assert events[..i + 1][..i] == events[..i];
      assert Fits(events[i].kind);
    }
  }

  /** How the domain changes, between the view before an event and the view after it. */
  ghost predicate Moves(before: View, after: View, hook: Webhooks.HookType) {
    match hook
    case HookReady => before.status.Provisioning? && after.status.Ready?
    case HookRecovered => before.status.AttentionRequired? && after.status.Ready?
    case HookAttentionRequired => !before.status.AttentionRequired? && after.status.AttentionRequired?
    case HookDeleted => !before.deleted && after.deleted
  }

  lemma KindMoves(before: View, kind: EventKind, after: View, hook: Webhooks.HookType)
    requires Fits(kind) && ApplyEvent(Some(before), kind) == Some(after)
    ensures Webhooks.WebhookEventType(kind) == Some(hook) <==> Moves(before, after, hook)
  {
  }

  lemma EventMoves(events: seq<Event>, i: nat, hook: Webhooks.HookType)
    requires LogFits(events) && Fold(events).Some? && 1 <= i < |events|
    ensures Fold(events[..i]).Some? && Fold(events[..i + 1]).Some?
    ensures Webhooks.WebhookEventType(events[i].kind) == Some(hook)
       <==> Moves(Fold(events[..i]).value, Fold(events[..i + 1]).value, hook)
  {
    PartsFold(events, i);
    PartsFold(events, i + 1);
    assert events[..i + 1][..i] == events[..i];
    assert Fits(events[i].kind);
    KindMoves(Fold(events[..i]).value, events[i].kind, Fold(events[..i + 1]).value, hook);
  }

  // --- what is queued -----------------------------------------------------------------------------------

  /** The subscription is active, the application's, and asks for such notifications. */
  predicate Subscribed(s: Webhooks.Subscription, applicationId: nat, hook: Webhooks.HookType) {
    s.applicationId == applicationId && s.revokedAt.None? && hook in s.events
  }

  lemma {:induction false} QueuedAre(subscriptions: seq<Webhooks.Subscription>, applicationId: nat, id: nat, kind: EventKind, at: Time,
                                     d: Webhooks.Delivery)
    ensures d in Webhooks.Enqueued(subscriptions, applicationId, id, kind, at) <==>
      && d.event == id && d.attempts == 0 && d.nextAttempt == Some(at) && d.deliveredAt.None? && d.abandonedAt.None?
      && Webhooks.WebhookEventType(kind) == Some(d.kind)
      && exists s | s in subscriptions :: s.id == d.subscription && Subscribed(s, applicationId, d.kind)
  {
    if subscriptions != [] {
      var before, last := subscriptions[..|subscriptions| - 1], subscriptions[|subscriptions| - 1];
      QueuedAre(before, applicationId, id, kind, at, d);
      assert subscriptions == before + [last];
      assert last in subscriptions;
    }
  }

  /**
   * Over the log of any run: the event at `i` queues for a subscription exactly the notifications it asks
   * for and the event brings about, by the status and tombstone before and after it, as `ExactlyOneEach`
   * once; each names the event, is due at its timestamp and has no attempts behind it.
   */
  lemma NotifiedExactly(r: Registration, actions: seq<Action>, subscriptions: seq<Webhooks.Subscription>, i: nat,
                        d: Webhooks.Delivery)
    requires 1 <= i < |Run(Begin(r), actions).row.events|
    ensures var row := Run(Begin(r), actions).row;
      && Fold(row.events[..i]).Some? && Fold(row.events[..i + 1]).Some?
      && (d in Webhooks.Enqueued(subscriptions, row.applicationId, i, row.events[i].kind, row.events[i].at) <==>
            && d.event == i && d.attempts == 0 && d.nextAttempt == Some(row.events[i].at)
            && d.deliveredAt.None? && d.abandonedAt.None?
            && Moves(Fold(row.events[..i]).value, Fold(row.events[..i + 1]).value, d.kind)
            && exists s | s in subscriptions :: s.id == d.subscription && Subscribed(s, row.applicationId, d.kind))
  {
    RunInv(r, actions);
    RunFits(r, actions);
    var row := Run(Begin(r), actions).row;
    EventMoves(row.events, i, d.kind);
    QueuedAre(subscriptions, row.applicationId, i, row.events[i].kind, row.events[i].at, d);
  }

  /** The registration itself notifies nobody. */
  lemma RegistrationIsQuiet(r: Registration, actions: seq<Action>, subscriptions: seq<Webhooks.Subscription>)
    ensures var row := Run(Begin(r), actions).row;
      && row.events != []
      && Webhooks.Enqueued(subscriptions, row.applicationId, 0, row.events[0].kind, row.events[0].at) == []
  {
    RunFits(r, actions);
  }
}
