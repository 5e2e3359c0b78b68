/**
 * Deleted applications (`app/webhooks/worker.py`, `app/services/applications.py`): their webhooks stay
 * active until nothing is pending for them, so that what was queued before the deletion still arrives.
 */
module Settling {
  import opened Wrappers
  import opened Domains
  import opened Webhooks
  import opened DeliveryRuns

  // All deliveries, each with its attempts, and the subscriptions they are for.
  datatype Desk = Desk(subscriptions: seq<Subscription>, deliveries: seq<State>)

  // An event queues a delivery, one delivery takes a step, or the deleted applications are settled.
  datatype Move =
    | Queue(delivery: Delivery)
    | On(index: nat, action: Action)
    | Settle(deleted: set<nat>, now: Time)

  predicate IsActive(subscriptions: seq<Subscription>, id: nat) {
    exists s | s in subscriptions :: s.id == id && s.revokedAt.None?
  }

  function Rows(deliveries: seq<State>): seq<Delivery> {
    seq(|deliveries|, i requires 0 <= i < |deliveries| => deliveries[i].row)
  }

  function Informed(deliveries: seq<State>, subscriptions: seq<Subscription>): seq<State> {
    seq(|deliveries|, i requires 0 <= i < |deliveries| =>
      deliveries[i].(active := IsActive(subscriptions, deliveries[i].row.subscription)))
  }

  function MoveDesk(desk: Desk, m: Move): Desk {
    match m
    case Queue(d) =>
      if Fresh(d) && IsActive(desk.subscriptions, d.subscription) then desk.(deliveries := desk.deliveries + [Begin(d)])
      else desk
    case On(i, a) =>
      if i < |desk.deliveries| && !a.SetActive? then
        desk.(deliveries := desk.deliveries[i := Step(desk.deliveries[i], a)])
      else desk
    case Settle(deleted, now) =>
      var after := Settled(desk.subscriptions, Rows(desk.deliveries), deleted, now);
      Desk(after, Informed(desk.deliveries, after))
  }

  function RunDesk(desk: Desk, moves: seq<Move>): Desk {
    if moves == [] then desk else MoveDesk(RunDesk(desk, moves[..|moves| - 1]), moves[|moves| - 1])
  }

  /** A pending delivery that can only be given up: its subscription is revoked. */
  predicate Stranded(s: State) {
    s.row.Pending() && !s.active
  }

  predicate IsReplayOf(m: Move, i: nat) {
    m.On? && m.index == i && m.action.Replay?
  }

  /** Every delivery knows whether its subscription is active. */
  ghost predicate InStep(desk: Desk) {
    forall i | 0 <= i < |desk.deliveries| ::
      desk.deliveries[i].active == IsActive(desk.subscriptions, desk.deliveries[i].row.subscription)
  }

  /** The statement leaves a subscription active that a pending delivery needs. */
  lemma NeededStaysActive(desk: Desk, deleted: set<nat>, now: Time, i: nat)
    requires i < |desk.deliveries| && desk.deliveries[i].row.Pending()
    ensures var row := desk.deliveries[i].row;
      IsActive(Settled(desk.subscriptions, Rows(desk.deliveries), deleted, now), row.subscription)
      <==> IsActive(desk.subscriptions, row.subscription)
  {
    var row := desk.deliveries[i].row;
    var after := Settled(desk.subscriptions, Rows(desk.deliveries), deleted, now);
    assert Rows(desk.deliveries)[i] == row;
    assert HasPending(Rows(desk.deliveries), row.subscription);
    forall k | 0 <= k < |desk.subscriptions| && desk.subscriptions[k].id == row.subscription
      ensures after[k] == desk.subscriptions[k]
    {
      SettlingKeepsPending(desk.subscriptions, Rows(desk.deliveries), deleted, now, k);
    }
    if IsActive(desk.subscriptions, row.subscription) {
      var k :| 0 <= k < |desk.subscriptions|
        && desk.subscriptions[k].id == row.subscription && desk.subscriptions[k].revokedAt.None?;
      assert after[k] in after;
    }
    if IsActive(after, row.subscription) {
      var k :| 0 <= k < |after| && after[k].id == row.subscription && after[k].revokedAt.None?;
      SettlingKeepsPending(desk.subscriptions, Rows(desk.deliveries), deleted, now, k);
      assert desk.subscriptions[k] in desk.subscriptions;
    }
  }

  lemma MoveKeepsInStep(desk: Desk, m: Move)
    requires InStep(desk)
    ensures InStep(MoveDesk(desk, m))
  {
  }

  /** The only move that strands a delivery is a replay of one whose subscription is already revoked. */
  lemma StrandedExactly(desk: Desk, m: Move, i: nat)
    requires InStep(desk) && i < |desk.deliveries| && !Stranded(desk.deliveries[i])
    ensures |MoveDesk(desk, m).deliveries| >= |desk.deliveries|
    ensures Stranded(MoveDesk(desk, m).deliveries[i]) <==> IsReplayOf(m, i) && !desk.deliveries[i].active
  {
    if m.Settle? && desk.deliveries[i].row.Pending() {
      NeededStaysActive(desk, m.deleted, m.now, i);
    }
  }

  /** No delivery is replayed once its subscription has been revoked. */
  ghost predicate ReplaysInTime(desk: Desk, moves: seq<Move>) {
    moves == [] ||
    (var before, last := RunDesk(desk, moves[..|moves| - 1]), moves[|moves| - 1];
     ReplaysInTime(desk, moves[..|moves| - 1])
     && forall i | 0 <= i < |before.deliveries| :: IsReplayOf(last, i) ==> before.deliveries[i].active)
  }

  lemma {:induction false} NothingStranded(subscriptions: seq<Subscription>, moves: seq<Move>)
    requires ReplaysInTime(Desk(subscriptions, []), moves)
    ensures var desk := RunDesk(Desk(subscriptions, []), moves);
      InStep(desk) && forall i | 0 <= i < |desk.deliveries| :: !Stranded(desk.deliveries[i])
  {
    if moves != [] {
      NothingStranded(subscriptions, moves[..|moves| - 1]);
      var before, last := RunDesk(Desk(subscriptions, []), moves[..|moves| - 1]), moves[|moves| - 1];
      MoveKeepsInStep(before, last);
      forall i | 0 <= i < |before.deliveries|
        ensures !Stranded(MoveDesk(before, last).deliveries[i])
      {
        StrandedExactly(before, last, i);
      }
    }
  }

  /**
   * Where only settling revokes and replays are in time, a pending delivery, also one of an application
   * deleted since, is abandoned by nothing but an attempt that had seven behind it.
   */
  lemma SettlingAbandonsNothing(subscriptions: seq<Subscription>, moves: seq<Move>, i: nat, a: Action)
    requires ReplaysInTime(Desk(subscriptions, []), moves) && i < |RunDesk(Desk(subscriptions, []), moves).deliveries|
    ensures var s := RunDesk(Desk(subscriptions, []), moves).deliveries[i];
      s.row.Pending() && Step(s, a).row.abandonedAt.Some? ==>
        a.Finish? && !a.sent && a.worker in s.workers && s.workers[a.worker].Sending?
        && s.workers[a.worker].loaded + 1 >= MAX_ATTEMPTS
  {
    NothingStranded(subscriptions, moves);
  }

  /** A replay of a revoked subscription's delivery is accepted, and given up unsent by whoever takes it first. */
  lemma LateReplayIsGivenUp(s: State, worker: nat, at: Time)
    requires !s.active && worker !in s.workers
    ensures var row := Run(s, [Replay(at), TakeLease(at, worker, at), Load(at, worker)]).row;
      row.abandonedAt == Some(at) && row.attempts == 0
  {
    RunThree(s, Replay(at), TakeLease(at, worker, at), Load(at, worker));
  }
}
