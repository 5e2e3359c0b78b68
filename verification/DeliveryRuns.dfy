/**
 * What overlapping attempts and replays do to deliveries
 * (`app/webhooks/worker.py`): exactly when a delivery ends up both delivered and abandoned, and exactly
 * when a replay can be lost.
 */
module DeliveryRuns {
  import opened Wrappers
  import opened Domains
  import opened Webhooks

  function At(s: State, actions: seq<Action>, i: nat): State
    requires i <= |actions|
  {
    Run(s, actions[..i])
  }

  lemma {:induction false} RunAppends(s: State, a: seq<Action>, b: seq<Action>)
    ensures Run(s, a + b) == Run(Run(s, a), b)
    decreases |b|
  {
    if b == [] {
      assert a + b == a;
    } else {
      assert (a + b)[..|a + b| - 1] == a + b[..|b| - 1];
      RunAppends(s, a, b[..|b| - 1]);
    }
  }

  lemma AtNext(s: State, actions: seq<Action>, i: nat)
    requires i < |actions|
    ensures At(s, actions, i + 1) == Step(At(s, actions, i), actions[i])
  {
    assert actions[..i + 1][..i] == actions[..i];
  }

  // --- both delivered and abandoned ----------------------------------------------------------------

  predicate Delivers(s: State, a: Action) {
    a.Finish? && a.sent && a.worker in s.workers && s.workers[a.worker].Sending?
  }

  predicate Abandons(s: State, a: Action) {
    || (a.Finish? && !a.sent && a.worker in s.workers && s.workers[a.worker].Sending?
        && s.workers[a.worker].loaded + 1 >= MAX_ATTEMPTS)
    || (a.Load? && !s.active && a.worker in s.workers && s.workers[a.worker].Holding?)
  }

  predicate BothMarks(row: Delivery) {
    row.deliveredAt.Some? && row.abandonedAt.Some?
  }

  /** The step that leaves a delivery with both marks is one that writes a mark without looking at the other. */
  lemma BothMarksStep(s: State, a: Action)
    requires !BothMarks(s.row)
    ensures BothMarks(Step(s, a).row) <==>
      (Delivers(s, a) && s.row.abandonedAt.Some?) || (Abandons(s, a) && s.row.deliveredAt.Some?)
  {
  }

  /** The `i`th action writes the mark, and no replay has cleared it since. */
  ghost predicate Writes(d: Delivery, actions: seq<Action>, i: nat, delivered: bool) {
    && i < |actions|
    && (if delivered then Delivers(At(Begin(d), actions, i), actions[i]) else Abandons(At(Begin(d), actions, i), actions[i]))
    && forall j | i < j < |actions| :: !actions[j].Replay?
  }

  lemma WritesLonger(d: Delivery, actions: seq<Action>, i: nat, delivered: bool)
    requires actions != [] && i < |actions| - 1
    ensures Writes(d, actions, i, delivered) <==>
      Writes(d, actions[..|actions| - 1], i, delivered) && !actions[|actions| - 1].Replay?
  {
    assert actions[..|actions| - 1][..i] == actions[..i];
  }

  predicate Marked(row: Delivery, delivered: bool) {
    if delivered then row.deliveredAt.Some? else row.abandonedAt.Some?
  }

  lemma {:induction false} MarkedMeansWritten(d: Delivery, actions: seq<Action>, delivered: bool)
    requires Fresh(d)
    ensures Marked(Run(Begin(d), actions).row, delivered) <==> exists i :: Writes(d, actions, i, delivered)
  {
    if actions != [] {
      var n := |actions| - 1;
      MarkedMeansWritten(d, actions[..n], delivered);
      AtNext(Begin(d), actions, n);
      assert actions[..n + 1] == actions;
      forall i: nat | i < n
        ensures Writes(d, actions, i, delivered) <==> Writes(d, actions[..n], i, delivered) && !actions[n].Replay?
      {
        WritesLonger(d, actions, i, delivered);
      }
      if Marked(Run(Begin(d), actions).row, delivered) {
        if exists i :: Writes(d, actions[..n], i, delivered) && !actions[n].Replay? {
          var i :| Writes(d, actions[..n], i, delivered);
          assert Writes(d, actions, i, delivered);
        } else {
          assert Writes(d, actions, n, delivered);
        }
      }
    }
  }

  /** Once a row is settled, only attempts already under way are left until a replay. */
  lemma {:induction false} OnlyOldAttempts(d: Delivery, actions: seq<Action>, i: nat, k: nat)
    requires i <= k <= |actions| && !At(Begin(d), actions, i).row.Pending()
    requires forall j | i <= j < k :: !actions[j].Replay?
    ensures !At(Begin(d), actions, k).row.Pending()
    ensures At(Begin(d), actions, k).workers.Keys <= At(Begin(d), actions, i).workers.Keys
  {
    if i < k {
      OnlyOldAttempts(d, actions, i, k - 1);
      AtNext(Begin(d), actions, k - 1);
    }
  }

  /** The worker that ended its attempt with the `k`th action was under way when another's `i`th one settled the row. */
  ghost predicate Overtaken(d: Delivery, actions: seq<Action>, i: nat, k: nat, delivered: bool) {
    && i < k < |actions|
    && Writes(d, actions, i, delivered) && Writes(d, actions, k, !delivered)
    && actions[k].worker != actions[i].worker
    && actions[k].worker in At(Begin(d), actions, i).workers
  }

  lemma WritersOverlap(d: Delivery, actions: seq<Action>, i: nat, k: nat, delivered: bool)
    requires Writes(d, actions, i, delivered) && Writes(d, actions, k, !delivered) && i < k
    ensures Overtaken(d, actions, i, k, delivered)
  {
    AtNext(Begin(d), actions, i);
    OnlyOldAttempts(d, actions, i + 1, k);
  }

  /**
   * A delivery is both delivered and abandoned exactly when, since the last replay, two attempts were
   * under way at once and the one that ended first settled it one way and the other one the other way.
   */
  lemma BothMarksExactly(d: Delivery, actions: seq<Action>)
    requires Fresh(d)
    ensures BothMarks(Run(Begin(d), actions).row) <==> exists i, k, delivered :: Overtaken(d, actions, i, k, delivered)
  {
    MarkedMeansWritten(d, actions, true);
    MarkedMeansWritten(d, actions, false);
    if BothMarks(Run(Begin(d), actions).row) {
      var i :| Writes(d, actions, i, true);
      var k :| Writes(d, actions, k, false);
      if i < k {
        WritersOverlap(d, actions, i, k, true);
      } else {
        WritersOverlap(d, actions, k, i, false);
      }
    }
    forall i, k, delivered | Overtaken(d, actions, i, k, delivered)
      ensures BothMarks(Run(Begin(d), actions).row)
    {
      assert Writes(d, actions, i, delivered) && Writes(d, actions, k, !delivered);
      assert Marked(Run(Begin(d), actions).row, true) && Marked(Run(Begin(d), actions).row, false);
    }
  }

  lemma TwoUnderWay(workers: map<nat, Attempt>, u: nat, v: nat)
    requires u in workers && v in workers && u != v
    ensures |workers| >= 2
  {
    assert |workers.Keys - {u} - {v}| == |workers.Keys| - 2;
    assert |workers| == |workers.Keys|;
  }

  lemma OvertakenOverlaps(d: Delivery, actions: seq<Action>, i: nat, k: nat, delivered: bool)
    requires Overtaken(d, actions, i, k, delivered)
    ensures |At(Begin(d), actions, i).workers| >= 2
  {
    TwoUnderWay(At(Begin(d), actions, i).workers, actions[i].worker, actions[k].worker);
  }

  /** So a delivery that never has two attempts under way at once never gets both marks. */
  lemma OneAttemptAtATime(d: Delivery, actions: seq<Action>)
    requires Fresh(d)
    requires forall i | 0 <= i < |actions| :: |At(Begin(d), actions, i).workers| <= 1
    ensures !BothMarks(Run(Begin(d), actions).row)
  {
    BothMarksExactly(d, actions);
    if BothMarks(Run(Begin(d), actions).row) {
      var i, k, delivered :| Overtaken(d, actions, i, k, delivered);
      OvertakenOverlaps(d, actions, i, k, delivered);
    }
  }

  // --- lost replays ----------------------------------------------------------------------------------

  ghost predicate NothingLoaded(actions: seq<Action>) {
    forall a | a in actions :: !a.Load?
  }

  ghost predicate SomeoneSends(s: State) {
    exists w | w in s.workers :: s.workers[w].Sending?
  }

  lemma {:induction false} ReplayWaits(s: State, at: Time, more: seq<Action>)
    requires !SomeoneSends(s) && NothingLoaded(more)
    ensures var after := Run(Step(s, Replay(at)), more);
      && !SomeoneSends(after)
      && after.row.Pending() && after.row.attempts == 0 && after.row.nextAttempt.Some? && after.finished == 0
  {
    if more != [] {
      ReplayWaits(s, at, more[..|more| - 1]);
      var before := Run(Step(s, Replay(at)), more[..|more| - 1]);
      assert more[|more| - 1] in more;
      StillNobodySends(before, more[|more| - 1]);
    }
  }

  lemma StillNobodySends(s: State, a: Action)
    requires !SomeoneSends(s) && !a.Load?
    ensures !SomeoneSends(Step(s, a))
    ensures Step(s, a).finished == (if a.Replay? then 0 else s.finished)
    ensures !a.Replay? ==> Step(s, a).row == s.row.(nextAttempt := Step(s, a).row.nextAttempt)
    ensures s.row.nextAttempt.Some? ==> Step(s, a).row.nextAttempt.Some?
  {
  }

  /**
   * A replay can be settled with nothing sent for it, no attempt having loaded the row since, exactly
   * when an attempt that had loaded it before is still under way.
   */
  lemma ReplayLostExactly(s: State, at: Time)
    ensures (exists more :: NothingLoaded(more) && !Run(Step(s, Replay(at)), more).row.Pending()) <==> SomeoneSends(s)
  {
    if SomeoneSends(s) {
      var w :| w in s.workers && s.workers[w].Sending?;
      var replayed := Step(s, Replay(at));
      var more := [Finish(at, w, true)];
      assert more[..0] == [];
      assert Run(replayed, []) == replayed;
      assert Run(replayed, more) == Step(replayed, Finish(at, w, true));
      assert NothingLoaded(more);
    }
    forall more | NothingLoaded(more) && !Run(Step(s, Replay(at)), more).row.Pending()
      ensures SomeoneSends(s)
    {
      if !SomeoneSends(s) {
        ReplayWaits(s, at, more);
      }
    }
  }

  // --- inputs that show both ---------------------------------------------------------------------

  /** When the attempt after `failed` failures starts, each as soon as it is due; the first starts at `start`. */
  function StartOf(start: Time, failed: nat): Time {
    if failed == 0 then start else StartOf(start, failed - 1) + Backoff(failed)
  }

  function FailedAttempt(at: Time): seq<Action> {
    [TakeLease(at, 1, at), Load(at, 1), Finish(at, 1, false)]
  }

  function FailedAttempts(start: Time, failed: nat): seq<Action> {
    if failed == 0 then [] else FailedAttempts(start, failed - 1) + FailedAttempt(StartOf(start, failed - 1))
  }

  lemma RunThree(s: State, a: Action, b: Action, c: Action)
    ensures Run(s, [a, b, c]) == Step(Step(Step(s, a), b), c)
  {
    assert [a, b, c][..2] == [a, b] && [a, b][..1] == [a];
    assert Run(s, [a]) == Step(Run(s, []), a);
    assert Run(s, [a, b]) == Step(Run(s, [a]), b);
  }

  lemma FailedOnce(d: Delivery, failed: nat, at: Time)
    requires d.Pending() && d.attempts == failed < MAX_ATTEMPTS - 1 && d.nextAttempt == Some(at)
    ensures Run(State(d, map[], true, failed), FailedAttempt(at))
         == State(d.(attempts := failed + 1, nextAttempt := Some(at + Backoff(failed + 1))), map[], true, failed + 1)
  {
    var s := State(d, map[], true, failed);
    RunThree(s, TakeLease(at, 1, at), Load(at, 1), Finish(at, 1, false));
    var leased := Step(s, TakeLease(at, 1, at));
    assert leased == State(Leased(d, at), map[1 := Holding(at)], true, failed);
    var loaded := Step(leased, Load(at, 1));
    assert loaded == State(Leased(d, at), map[1 := Sending(at, failed)], true, failed);
    assert loaded.workers - {1} == map[];
  }

  /** After up to seven failures in a row, the delivery is pending and due again at the end of the backoff. */
  lemma {:induction false} FailingRun(d: Delivery, start: Time, failed: nat)
    requires Fresh(d) && d.nextAttempt == Some(start) && failed < MAX_ATTEMPTS
    ensures Run(Begin(d), FailedAttempts(start, failed))
         == State(d.(attempts := failed, nextAttempt := Some(StartOf(start, failed))), map[], true, failed)
  {
    if failed > 0 {
      var at := StartOf(start, failed - 1);
      FailingRun(d, start, failed - 1);
      RunAppends(Begin(d), FailedAttempts(start, failed - 1), FailedAttempt(at));
      FailedOnce(d.(attempts := failed - 1, nextAttempt := Some(at)), failed - 1, at);
    }
  }

  /** Worker 1 is still sending when its lease lapses and worker 2 starts over; both then end. */
  function LapsedLease(at: Time, first: Action, second: Action): seq<Action> {
    [TakeLease(at, 1, at), Load(at, 1), TakeLease(at + LEASE, 2, at + LEASE)] + [Load(at + LEASE, 2), first, second]
  }

  lemma SecondLease(s: State, at: Time)
    requires s.row.Pending() && s.row.nextAttempt == Some(at) && s.workers == map[] && s.active
    ensures var both := map[1 := Sending(at, s.row.attempts), 2 := Holding(at + LEASE)];
      Run(s, [TakeLease(at, 1, at), Load(at, 1), TakeLease(at + LEASE, 2, at + LEASE)])
      == State(Leased(s.row, at + LEASE), both, true, s.finished)
  {
    RunThree(s, TakeLease(at, 1, at), Load(at, 1), TakeLease(at + LEASE, 2, at + LEASE));
    assert Step(Step(s, TakeLease(at, 1, at)), Load(at, 1))
        == State(Leased(s.row, at), map[1 := Sending(at, s.row.attempts)], true, s.finished);
  }

  lemma LapsedLeaseSteps(s: State, at: Time, first: Action, second: Action)
    requires s.row.Pending() && s.row.nextAttempt == Some(at) && s.workers == map[] && s.active
    ensures var n := s.row.attempts;
      var both := map[1 := Sending(at, n), 2 := Sending(at + LEASE, n)];
      Run(s, LapsedLease(at, first, second)) == Step(Step(State(Leased(s.row, at + LEASE), both, true, s.finished), first), second)
  {
    var opening := [TakeLease(at, 1, at), Load(at, 1), TakeLease(at + LEASE, 2, at + LEASE)];
    RunAppends(s, opening, [Load(at + LEASE, 2), first, second]);
    SecondLease(s, at);
    RunThree(Run(s, opening), Load(at + LEASE, 2), first, second);
    assert Step(Run(s, opening), Load(at + LEASE, 2)).workers
        == map[1 := Sending(at, s.row.attempts), 2 := Sending(at + LEASE, s.row.attempts)];
  }

  /**
   * Seven attempts fail, the lease of the eighth lapses while it is still sending, and a second worker
   * starts over: the eighth fails and abandons the delivery, and the second worker's is delivered.
   */
  lemma LapsedLeaseCounterexample(d: Delivery, start: Time)
    requires Fresh(d) && d.nextAttempt == Some(start)
    ensures var at := StartOf(start, 7);
      var eighth := LapsedLease(at, Finish(at + LEASE, 1, false), Finish(at + LEASE, 2, true));
      BothMarks(Run(Begin(d), FailedAttempts(start, 7) + eighth).row)
  {
    var at := StartOf(start, 7);
    var first, second := Finish(at + LEASE, 1, false), Finish(at + LEASE, 2, true);
    FailingRun(d, start, 7);
    RunAppends(Begin(d), FailedAttempts(start, 7), LapsedLease(at, first, second));
    LapsedLeaseSteps(State(d.(attempts := 7, nextAttempt := Some(at)), map[], true, 7), at, first, second);
  }

  /**
   * The other route: the first attempt delivers after its lease has lapsed and a second worker has taken
   * it, the subscription is revoked, and the second worker abandons what it then loads.
   */
  lemma RevokedAfterDeliveryCounterexample(d: Delivery, start: Time)
    requires Fresh(d) && d.nextAttempt == Some(start)
    ensures var late := start + LEASE;
      BothMarks(Run(Begin(d), [TakeLease(start, 1, start), Load(start, 1), TakeLease(late, 2, late)]
                              + [Finish(late, 1, true), SetActive(late, false), Load(late, 2)]).row)
  {
    var late := start + LEASE;
    var a, b, c := TakeLease(start, 1, start), Load(start, 1), TakeLease(late, 2, late);
    var e, f, g := Finish(late, 1, true), SetActive(late, false), Load(late, 2);
    RunAppends(Begin(d), [a, b, c], [e, f, g]);
    RunThree(Begin(d), a, b, c);
    RunThree(Run(Begin(d), [a, b, c]), e, f, g);
    assert Step(Step(Begin(d), a), b) == State(Leased(d, start), map[1 := Sending(start, 0)], true, 0);
  }

  /** A replay while an attempt is under way can be lost: the delivery is marked delivered, never sent again. */
  lemma ReplayInFlightCounterexample(d: Delivery, start: Time)
    requires Fresh(d) && d.nextAttempt == Some(start)
    ensures var row := Run(Begin(d), [TakeLease(start, 1, start), Load(start, 1), Replay(start + MINUTE)]
                                     + [Finish(start + MINUTE, 1, true)]).row;
      row.deliveredAt.Some? && row.nextAttempt.None?
  {
    var a, b, c, e := TakeLease(start, 1, start), Load(start, 1), Replay(start + MINUTE), Finish(start + MINUTE, 1, true);
    RunAppends(Begin(d), [a, b, c], [e]);
    RunThree(Begin(d), a, b, c);
    var s := Run(Begin(d), [a, b, c]);
    assert [e][..0] == [] && Run(s, []) == s;
    assert Step(Step(Begin(d), a), b).workers[1] == Sending(start, 0);
  }
}
