/** The outbox and what becomes of a delivery (`app/services/webhooks.py`, `app/webhooks/worker.py`). */
module Webhooks {
  import opened Wrappers
  import opened Domains

  const LEASE: Time := 2 * MINUTE
  const MAX_ATTEMPTS := 8
  // Minutes to wait after the first, second, ... failed attempt; the last value repeats.
  const BACKOFF_MINUTES: seq<int> := [1, 5, 30, 120, 720, 1440]

  datatype HookType = HookReady | HookAttentionRequired | HookRecovered | HookDeleted

  datatype Subscription = Subscription(id: nat, applicationId: nat, events: set<HookType>, revokedAt: Option<Time>)

  datatype Delivery = Delivery(
    subscription: nat, event: nat, kind: HookType,
    attempts: nat, nextAttempt: Option<Time>, deliveredAt: Option<Time>, abandonedAt: Option<Time>)
  {
    predicate Pending() {
      deliveredAt.None? && abandonedAt.None?
    }

    predicate Due(now: Time) {
      Pending() && nextAttempt.Some? && nextAttempt.value <= now
    }
  }

  // --- the outbox --------------------------------------------------------------------------------

  function WebhookEventType(kind: EventKind): Option<HookType> {
    match kind
    case StatusChanged(_, to, reason) =>
      if to.Ready? then Some(if reason.Recovered? then HookRecovered else HookReady)
      else if to.AttentionRequired? then Some(HookAttentionRequired)
      else None
    case DomainDeleted => Some(HookDeleted)
    case _ => None
  }

  predicate Wants(s: Subscription, applicationId: nat, kind: HookType) {
    s.applicationId == applicationId && s.revokedAt.None? && kind in s.events
  }

  function For(s: Subscription, applicationId: nat, id: nat, hook: HookType, at: Time): seq<Delivery> {
    if Wants(s, applicationId, hook) then [Delivery(s.id, id, hook, 0, Some(at), None, None)] else []
  }

  /** What recording an event queues: `id` is the event's, `at` its timestamp. */
  function Enqueued(subscriptions: seq<Subscription>, applicationId: nat, id: nat, kind: EventKind, at: Time): seq<Delivery> {
    var hook := WebhookEventType(kind);
    if hook.None? || subscriptions == [] then []
    else
      var last := subscriptions[|subscriptions| - 1];
      Enqueued(subscriptions[..|subscriptions| - 1], applicationId, id, kind, at) + For(last, applicationId, id, hook.value, at)
  }

  method EnqueueForEvent(subscriptions: seq<Subscription>, applicationId: nat, id: nat, kind: EventKind, at: Time)
    returns (deliveries: seq<Delivery>)
    ensures deliveries == Enqueued(subscriptions, applicationId, id, kind, at)
  {
    deliveries := [];
    var hook := WebhookEventType(kind);
    if hook.None? {
      return;
    }
    for i := 0 to |subscriptions|
      invariant deliveries == Enqueued(subscriptions[..i], applicationId, id, kind, at)
    {
      assert subscriptions[..i + 1][..i] == subscriptions[..i];
      if Wants(subscriptions[i], applicationId, hook.value) {
        deliveries := deliveries + [Delivery(subscriptions[i].id, id, hook.value, 0, Some(at), None, None)];
      }
    }
    assert subscriptions[..|subscriptions|] == subscriptions;
  }

  function CountFor(deliveries: seq<Delivery>, subscription: nat): nat {
    if deliveries == [] then 0
    else
      var last := deliveries[|deliveries| - 1];
      CountFor(deliveries[..|deliveries| - 1], subscription) + if last.subscription == subscription then 1 else 0
  }

  lemma CountOneMore(deliveries: seq<Delivery>, s: Subscription, applicationId: nat, id: nat, hook: HookType, at: Time, other: nat)
    ensures CountFor(deliveries + For(s, applicationId, id, hook, at), other)
         == CountFor(deliveries, other) + if Wants(s, applicationId, hook) && s.id == other then 1 else 0
  {
    var more := deliveries + For(s, applicationId, id, hook, at);
    if Wants(s, applicationId, hook) {
      assert more[..|more| - 1] == deliveries;
    } else {
      assert more == deliveries;
    }
  }

  lemma EnqueuedOneMore(before: seq<Subscription>, last: Subscription, applicationId: nat, id: nat, kind: EventKind, at: Time,
                        other: nat)
    requires WebhookEventType(kind).Some?
    ensures CountFor(Enqueued(before + [last], applicationId, id, kind, at), other)
         == CountFor(Enqueued(before, applicationId, id, kind, at), other)
          + if Wants(last, applicationId, WebhookEventType(kind).value) && last.id == other then 1 else 0
  {
    assert (before + [last])[..|before|] == before;
    CountOneMore(Enqueued(before, applicationId, id, kind, at), last, applicationId, id, WebhookEventType(kind).value, at, other);
  }

  lemma {:induction false} NoneForOthers(subscriptions: seq<Subscription>, applicationId: nat, id: nat, kind: EventKind, at: Time,
                                         other: nat)
    requires forall s | s in subscriptions :: s.id != other
    ensures CountFor(Enqueued(subscriptions, applicationId, id, kind, at), other) == 0
  {
    var hook := WebhookEventType(kind);
    if subscriptions != [] && hook.Some? {
      var before, last := subscriptions[..|subscriptions| - 1], subscriptions[|subscriptions| - 1];
      NoneForOthers(before, applicationId, id, kind, at, other);
      assert subscriptions == before + [last];
      EnqueuedOneMore(before, last, applicationId, id, kind, at, other);
    }
  }

  /** One delivery for each active subscription of the application that wants the event, none for any other. */
  lemma {:induction false} ExactlyOneEach(subscriptions: seq<Subscription>, applicationId: nat, id: nat, kind: EventKind, at: Time,
                                          k: nat)
    requires k < |subscriptions|
    requires forall i, j | 0 <= i < j < |subscriptions| :: subscriptions[i].id != subscriptions[j].id
    ensures var hook := WebhookEventType(kind);
      CountFor(Enqueued(subscriptions, applicationId, id, kind, at), subscriptions[k].id) ==
        if hook.Some? && Wants(subscriptions[k], applicationId, hook.value) then 1 else 0
  {
    var hook := WebhookEventType(kind);
    if hook.Some? {
      var n := |subscriptions| - 1;
      var before := subscriptions[..n];
      assert subscriptions == before + [subscriptions[n]];
      EnqueuedOneMore(before, subscriptions[n], applicationId, id, kind, at, subscriptions[k].id);
      if k == n {
        NoneForOthers(before, applicationId, id, kind, at, subscriptions[n].id);
      } else {
        ExactlyOneEach(before, applicationId, id, kind, at, k);
      }
    }
  }

  // --- what each transaction does to a delivery ----------------------------------------------------

  function Leased(d: Delivery, now: Time): Delivery {
    d.(nextAttempt := Some(now + LEASE))
  }

  function Backoff(attempts: nat): Time
    requires attempts >= 1
  {
    BACKOFF_MINUTES[(if attempts < |BACKOFF_MINUTES| then attempts else |BACKOFF_MINUTES|) - 1] * MINUTE
  }

  /**
   * The outcome of an attempt that had loaded the row with `loaded` attempts. The row is not read
   * again: the count written is one more than the one loaded, and nothing else but the outcome changes.
   */
  function Attempted(d: Delivery, loaded: nat, sent: bool, now: Time): Delivery {
    var attempts := loaded + 1;
    if sent then d.(attempts := attempts, deliveredAt := Some(now), nextAttempt := None)
    else if attempts >= MAX_ATTEMPTS then d.(attempts := attempts, abandonedAt := Some(now), nextAttempt := None)
    else d.(attempts := attempts, nextAttempt := Some(now + Backoff(attempts)))
  }

  function Replayed(d: Delivery, now: Time): Delivery {
    d.(deliveredAt := None, abandonedAt := None, attempts := 0, nextAttempt := Some(now))
  }

  datatype Outcome = Skipped | Delivered | Retry | Abandoned

  class DeliveryRecord {
    const subscription: nat
    const event: nat
    const kind: HookType
    var attempts: nat
    var nextAttempt: Option<Time>
    var deliveredAt: Option<Time>
    var abandonedAt: Option<Time>

    function View(): Delivery
      reads this
    {
      Delivery(subscription, event, kind, attempts, nextAttempt, deliveredAt, abandonedAt)
    }

    constructor (d: Delivery)
      ensures View() == d
    {
      subscription, event, kind := d.subscription, d.event, d.kind;
      attempts, nextAttempt, deliveredAt, abandonedAt := d.attempts, d.nextAttempt, d.deliveredAt, d.abandonedAt;
    }

    method Lease(now: Time) returns (leased: bool)
      modifies this
      ensures leased == old(View()).Due(now)
      ensures View() == if leased then Leased(old(View()), now) else old(View())
    {
      leased := deliveredAt.None? && abandonedAt.None? && nextAttempt.Some? && nextAttempt.value <= now;
      if leased {
        nextAttempt := Some(now + LEASE);
      }
    }

    method Abandon(now: Time)
      modifies this
      ensures View() == old(View()).(abandonedAt := Some(now))
    {
      abandonedAt := Some(now);
    }

    method Finish(loaded: nat, sent: bool, now: Time) returns (outcome: Outcome)
      modifies this
      ensures View() == Attempted(old(View()), loaded, sent, now)
      ensures outcome == if sent then Delivered else if loaded + 1 >= MAX_ATTEMPTS then Abandoned else Retry
    {
      attempts := loaded + 1;
      if sent {
        deliveredAt := Some(now);
        nextAttempt := None;
        outcome := Delivered;
      } else if attempts >= MAX_ATTEMPTS {
        abandonedAt := Some(now);
        nextAttempt := None;
        outcome := Abandoned;
      } else {
        nextAttempt := Some(now + Backoff(attempts));
        outcome := Retry;
      }
    }

    method Replay(now: Time)
      modifies this
      ensures View() == Replayed(old(View()), now)
    {
      deliveredAt, abandonedAt := None, None;
      attempts := 0;
      nextAttempt := Some(now);
    }
  }

  /** Every delivery of the given list is queued again, and no other row changes. */
  method ReplaySince(rows: seq<DeliveryRecord>, now: Time)
    requires forall i, j | 0 <= i < j < |rows| :: rows[i] != rows[j]
    modifies rows
    ensures forall i | 0 <= i < |rows| :: rows[i].View() == Replayed(old(rows[i].View()), now)
  {
    for i := 0 to |rows|
      invariant forall j | 0 <= j < i :: rows[j].View() == Replayed(old(rows[j].View()), now)
      invariant forall j | i <= j < |rows| :: rows[j].View() == old(rows[j].View())
    {
      rows[i].Replay(now);
    }
  }

  // --- one delivery, any number of workers -----------------------------------------------------------

  // A worker's attempt: it has taken the lease, or it has loaded the row and is sending.
  datatype Attempt = Holding(now: Time) | Sending(now: Time, loaded: nat)

  // `finished` counts the attempts that ended since the delivery was queued or replayed.
  datatype State = State(row: Delivery, workers: map<nat, Attempt>, active: bool, finished: nat)

  // Every action says when it happens; a lease carries the slightly older time its worker started with.
  datatype Action =
    | TakeLease(at: Time, worker: nat, now: Time)
    | Load(at: Time, worker: nat)
    | Finish(at: Time, worker: nat, sent: bool)
    | Die(at: Time, worker: nat)
    | Replay(at: Time)
    | SetActive(at: Time, active: bool)

  function Step(s: State, a: Action): State {
    match a
    case TakeLease(_, worker, now) =>
      if worker in s.workers || !s.row.Due(now) then s
      else s.(row := Leased(s.row, now), workers := s.workers[worker := Holding(now)])
    case Load(_, worker) =>
      if worker !in s.workers || !s.workers[worker].Holding? then s
      else if s.active then s.(workers := s.workers[worker := Sending(s.workers[worker].now, s.row.attempts)])
      else s.(row := s.row.(abandonedAt := Some(s.workers[worker].now)), workers := s.workers - {worker})
    case Finish(_, worker, sent) =>
      if worker !in s.workers || !s.workers[worker].Sending? then s
      else
        var attempt := s.workers[worker];
        s.(row := Attempted(s.row, attempt.loaded, sent, attempt.now), workers := s.workers - {worker},
           finished := s.finished + 1)
    case Die(_, worker) => s.(workers := s.workers - {worker})
    case Replay(at) => s.(row := Replayed(s.row, at), finished := 0)
    case SetActive(_, active) => s.(active := active)
  }

  function Run(s: State, actions: seq<Action>): State {
    if actions == [] then s else Step(Run(s, actions[..|actions| - 1]), actions[|actions| - 1])
  }

  predicate Fresh(d: Delivery) {
    d.Pending() && d.attempts == 0 && d.nextAttempt.Some?
  }

  function Begin(d: Delivery): State {
    State(d, map[], true, 0)
  }

  /** However workers, replays and lapsed leases interleave, a delivery that is neither delivered nor abandoned is due again. */
  lemma {:induction false} PendingIsNeverLost(d: Delivery, actions: seq<Action>)
    requires Fresh(d)
    ensures var row := Run(Begin(d), actions).row;
      row.Pending() ==> row.nextAttempt.Some?
  {
    if actions != [] {
      PendingIsNeverLost(d, actions[..|actions| - 1]);
    }
  }

  /** Attempts end, one way or another, before their lease does; no replay arrives while one is under way. */
  predicate Timely(s: State, a: Action) {
    && (forall w | w in s.workers :: a.at < s.workers[w].now + LEASE)
    && (a.TakeLease? ==> a.now <= a.at)
    && (a.Replay? ==> s.workers == map[])
  }

  predicate AllTimely(s: State, actions: seq<Action>) {
    actions == [] ||
    (AllTimely(s, actions[..|actions| - 1]) && Timely(Run(s, actions[..|actions| - 1]), actions[|actions| - 1]))
  }

  ghost predicate Inv(s: State) {
    && s.row.attempts == s.finished <= MAX_ATTEMPTS
    && (s.row.Pending() ==> s.row.attempts < MAX_ATTEMPTS && s.row.nextAttempt.Some?)
    && !(s.row.deliveredAt.Some? && s.row.abandonedAt.Some?)
    && (forall w | w in s.workers ::
          && s.row.Pending() && s.row.nextAttempt == Some(s.workers[w].now + LEASE)
          && (s.workers[w].Sending? ==> s.workers[w].loaded == s.row.attempts))
    && (forall w, v | w in s.workers && v in s.workers :: w == v)
  }

  lemma StepInv(s: State, a: Action)
    requires Inv(s) && Timely(s, a)
    ensures Inv(Step(s, a))
  {
  }

  lemma {:induction false} TimelyInv(d: Delivery, actions: seq<Action>)
    requires Fresh(d) && AllTimely(Begin(d), actions)
    ensures Inv(Run(Begin(d), actions))
  {
    if actions != [] {
      TimelyInv(d, actions[..|actions| - 1]);
      StepInv(Run(Begin(d), actions[..|actions| - 1]), actions[|actions| - 1]);
    }
  }

  /** With timely attempts a delivery is never attempted more than eight times, nor both delivered and abandoned. */
  lemma TimelyDeliveries(d: Delivery, actions: seq<Action>)
    requires Fresh(d) && AllTimely(Begin(d), actions)
    ensures var s := Run(Begin(d), actions);
      && s.finished <= MAX_ATTEMPTS && s.row.attempts == s.finished
      && !(s.row.deliveredAt.Some? && s.row.abandonedAt.Some?)
      && (s.row.abandonedAt.Some? ==> s.finished == MAX_ATTEMPTS || exists a | a in actions :: a.SetActive? && !a.active)
  {
    TimelyInv(d, actions);
    AbandonedWhy(d, actions);
  }

  lemma {:induction false} AbandonedWhy(d: Delivery, actions: seq<Action>)
    requires Fresh(d) && AllTimely(Begin(d), actions)
    ensures var s := Run(Begin(d), actions);
      || (s.active && (s.row.abandonedAt.Some? ==> s.finished == MAX_ATTEMPTS))
      || (exists a | a in actions :: a.SetActive? && !a.active)
  {
    if actions != [] {
      var before := actions[..|actions| - 1];
      AbandonedWhy(d, before);
      TimelyInv(d, before);
      assert actions == before + [actions[|actions| - 1]];
    }
  }

  /** Minutes from the start of the `k`th failed attempt to the next one. */
  ghost predicate WaitsAfter(k: nat, minutes: int) {
    || (k == 1 && minutes == 1) || (k == 2 && minutes == 5) || (k == 3 && minutes == 30)
    || (k == 4 && minutes == 120) || (k == 5 && minutes == 720) || (k >= 6 && minutes == 1440)
  }

  /** The attempt's end, when it was the `k`th: delivered for good, due again after the wait, or after the eighth given up. */
  ghost predicate EndsAs(after: Delivery, k: nat, sent: bool, started: Time) {
    && after.attempts == k
    && if sent then after.deliveredAt == Some(started) && after.abandonedAt.None? && after.nextAttempt.None?
       else if k < 8 then
         after.Pending() && after.nextAttempt.Some? && exists minutes | 1 <= minutes <= 1440 ::
           WaitsAfter(k, minutes) && after.nextAttempt.value == started + minutes * MINUTE
       else after.abandonedAt == Some(started) && after.deliveredAt.None? && after.nextAttempt.None?
  }

  lemma AttemptEnds(s: State, worker: nat, at: Time, sent: bool)
    requires Inv(s) && worker in s.workers && s.workers[worker].Sending?
    ensures EndsAs(Step(s, Finish(at, worker, sent)).row, s.finished + 1, sent, s.workers[worker].now)
  {
    var k := s.finished + 1;
    var minutes := if k == 1 then 1 else if k == 2 then 5 else if k == 3 then 30 else if k == 4 then 120
                   else if k == 5 then 720 else 1440;
    assert WaitsAfter(k, minutes);
    assert k < MAX_ATTEMPTS ==> Backoff(k) == minutes * MINUTE;
  }

  /** With timely attempts, the `k`th attempt since a delivery was queued or replayed ends as the schedule has it. */
  lemma AttemptsFollowTheSchedule(d: Delivery, actions: seq<Action>, worker: nat, at: Time, sent: bool)
    requires Fresh(d) && AllTimely(Begin(d), actions)
    requires worker in Run(Begin(d), actions).workers && Run(Begin(d), actions).workers[worker].Sending?
    ensures var s := Run(Begin(d), actions);
      EndsAs(Step(s, Finish(at, worker, sent)).row, s.finished + 1, sent, s.workers[worker].now)
  {
    TimelyInv(d, actions);
    AttemptEnds(Run(Begin(d), actions), worker, at, sent);
  }

  // --- deleted applications ------------------------------------------------------------------------

  predicate HasPending(deliveries: seq<Delivery>, subscription: nat) {
    exists d | d in deliveries :: d.subscription == subscription && d.Pending()
  }

  /** One statement: the subscriptions of deleted applications with nothing pending are revoked. */
  function Settled(subscriptions: seq<Subscription>, deliveries: seq<Delivery>, deleted: set<nat>, now: Time): seq<Subscription> {
    seq(|subscriptions|, i requires 0 <= i < |subscriptions| =>
      var s := subscriptions[i];
      if s.revokedAt.None? && s.applicationId in deleted && !HasPending(deliveries, s.id) then s.(revokedAt := Some(now)) else s)
  }

  /** Settling never revokes a subscription that a pending delivery still needs, and revokes every other one. */
  lemma SettlingKeepsPending(subscriptions: seq<Subscription>, deliveries: seq<Delivery>, deleted: set<nat>, now: Time, i: nat)
    requires i < |subscriptions|
    ensures var before, after := subscriptions[i], Settled(subscriptions, deliveries, deleted, now)[i];
      && (HasPending(deliveries, before.id) ==> after == before)
      && (before.applicationId !in deleted ==> after == before)
      && (before.applicationId in deleted && !HasPending(deliveries, before.id) ==> after.revokedAt.Some?)
      && after.(revokedAt := before.revokedAt) == before
  {
  }
}
