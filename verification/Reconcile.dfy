/**
 * Converging Caddy on the database (`app/edge/reconcile.py`, `app/edge/lock.py`): any number of
 * reconcilers, one lock held from the snapshot to the write, other transactions committing meanwhile.
 */
module Reconcile {
  import opened Wrappers
  import opened Json
  import opened EdgeConfig
  import opened Gateway
  import opened InternalApi
  import Domains
  import Serving
  import Agreement
  import OwnOrigin

  // --- one run, as one reconciler sees it -----------------------------------------------------------

  datatype Result = Failed(code: string) | Unchanged | Applied {
    predicate Ok() {
      !Failed?
    }
  }

  // How Caddy and the gateway answer a run: whether the running configuration can be read, what the
  // gateway finds, and whether Caddy takes the new configuration.
  datatype Answer = Answer(reachable: bool, accepted: bool, loaded: bool)

  function ApplyResult(running: Json, desired: Json, answer: Answer): Result {
    if !answer.reachable then Failed("caddy_unavailable")
    else if running == desired then Unchanged
    else if !answer.accepted then Failed("config_rejected")
    else if !answer.loaded then Failed("caddy_unavailable")
    else Applied
  }

  function RunningAfter(running: Json, desired: Json, answer: Answer): Json {
    if ApplyResult(running, desired, answer).Applied? then desired else running
  }

  class Reconciler {
    var running: Json
    var lastResult: Option<Result>

    constructor (running: Json)
      ensures this.running == running && lastResult == None
    {
      this.running := running;
      lastResult := None;
    }

    method Apply(desired: Json, answer: Answer) returns (result: Result)
      modifies `running
      ensures result == ApplyResult(old(running), desired, answer)
      ensures running == RunningAfter(old(running), desired, answer)
    {
      if !answer.reachable {
        return Failed("caddy_unavailable");
      }
      if running == desired {
        return Unchanged;
      }
      if !answer.accepted {
        return Failed("config_rejected");
      }
      if !answer.loaded {
        return Failed("caddy_unavailable");
      }
      running := desired;
      result := Applied;
    }

    /** One run: without a snapshot nothing is written; the outcome is kept either way. */
    method RunOnce(snapshot: Option<Database>, lookup: Lookup, s: Settings, answer: Answer)
      modifies this
      ensures snapshot.None? ==> running == old(running) && lastResult == Some(Failed("database_unavailable"))
      ensures snapshot.Some? ==>
        var desired := BuildApps(snapshot.value, lookup, s);
        && lastResult == Some(ApplyResult(old(running), desired, answer))
        && running == RunningAfter(old(running), desired, answer)
        && (lastResult.value.Ok() ==> running == desired)
        && (!lastResult.value.Ok() ==> running == old(running))
    {
      if snapshot.None? {
        lastResult := Some(Failed("database_unavailable"));
        return;
      }
      var desired := CompileApps(snapshot.value, lookup, s);
      var result := Apply(desired, answer);
      lastResult := Some(result);
    }
  }

  /** The lock rows. `raced`: another transaction creates the row between the update and the insert. */
  class LockTable {
    var holders: map<string, string>

    constructor ()
      ensures holders == map[]
    {
      holders := map[];
    }

    method Acquire(name: string, holder: string, raced: Option<string>)
      modifies this
      ensures holders == old(holders)[name := holder]
    {
      if name in holders {
        holders := holders[name := holder];
        return;
      }
      if raced.Some? {
        holders := holders[name := raced.value];
      } else {
        holders := holders[name := ""];
      }
      holders := holders[name := holder];
    }
  }

  // --- all reconcilers together ---------------------------------------------------------------------

  // A run between its steps; `lockedAt` and `version` count committed transactions.
  datatype Run =
    | Locked(lockedAt: nat)
    | Built(lockedAt: nat, version: nat, desired: Json)
    | Finished(lockedAt: nat, version: nat, result: Result)

  datatype Write = Write(version: nat, apps: Json)

  // `commits` is the history of the database, the last one current. `writes`, `version` and
  // `confirmed` are history: the writes Caddy took, the commit of the last one or of a run that found
  // nothing to change, and the newest commit after which a successful run took the lock.
  datatype State = State(
    commits: seq<Database>,
    holder: Option<nat>,
    runs: map<nat, Run>,
    running: Json,
    version: nat,
    writes: seq<Write>,
    confirmed: nat)

  datatype Action =
    | Commit(db: Database)
    | TakeLock(run: nat)
    | Snapshot(run: nat, lookup: Lookup)
    | Apply(run: nat, lookup: Lookup, reachable: bool, loaded: bool)
    | Release(run: nat)
    | Crash(run: nat)
    | RestartCaddy

  function Latest(s: State): nat
    requires s.commits != []
  {
    |s.commits| - 1
  }

  /** The gateway checks with the facts as the API states them at that moment. */
  function AnswerNow(s: State, settings: Settings, canon: Canon, desired: Json, a: Action): Answer
    requires s.commits != [] && a.Apply?
  {
    var facts := EdgeFacts(s.commits[Latest(s)], a.lookup, settings);
    Answer(a.reachable, Accepts(desired, settings, facts, canon), a.loaded)
  }

  function DoApply(s: State, settings: Settings, canon: Canon, a: Action, run: Run): State
    requires s.commits != [] && a.Apply? && run.Built?
  {
    var answer := AnswerNow(s, settings, canon, run.desired, a);
    var result := ApplyResult(s.running, run.desired, answer);
    s.(running := RunningAfter(s.running, run.desired, answer),
       version := if result.Ok() then run.version else s.version,
       writes := if result.Applied? then s.writes + [Write(run.version, run.desired)] else s.writes,
       runs := s.runs[a.run := Finished(run.lockedAt, run.version, result)])
  }

  function DoRelease(s: State, id: nat, run: Run): State
    requires run.Finished?
  {
    s.(holder := None, runs := s.runs - {id},
       confirmed := if run.result.Ok() && run.lockedAt > s.confirmed then run.lockedAt else s.confirmed)
  }

  /** What Caddy starts with: the edge's own server without any application. */
  function Bootstrap(settings: Settings): Json {
    Obj(map[HTTP := Obj(HttpApp(settings, []))])
  }

  function Step(s: State, settings: Settings, canon: Canon, a: Action): State
    requires s.commits != []
  {
    match a
    case Commit(db) => s.(commits := s.commits + [db])
    case TakeLock(id) =>
      if s.holder.None? && id !in s.runs then s.(holder := Some(id), runs := s.runs[id := Locked(Latest(s))]) else s
    case Snapshot(id, lookup) =>
      if id in s.runs && s.runs[id].Locked? then
        var desired := BuildApps(s.commits[Latest(s)], lookup, settings);
        s.(runs := s.runs[id := Built(s.runs[id].lockedAt, Latest(s), desired)])
      else s
    case Apply(id, _, _, _) =>
      if id in s.runs && s.runs[id].Built? then DoApply(s, settings, canon, a, s.runs[id]) else s
    case Release(id) =>
      if id in s.runs && s.runs[id].Finished? then DoRelease(s, id, s.runs[id]) else s
    case Crash(id) =>
      if id in s.runs then s.(holder := None, runs := s.runs - {id}) else s
    case RestartCaddy => s.(running := Bootstrap(settings))
  }

  function Begin(db: Database, running: Json): State {
    State([db], None, map[], running, 0, [], 0)
  }

  function RunAll(s: State, settings: Settings, canon: Canon, actions: seq<Action>): (after: State)
    requires s.commits != []
    ensures after.commits != []
  {
    if actions == [] then s
    else Step(RunAll(s, settings, canon, actions[..|actions| - 1]), settings, canon, actions[|actions| - 1])
  }

  // --- what a built configuration lists ------------------------------------------------------------

  /** An application route of the configuration names the hostname. */
  ghost predicate Lists(apps: Json, hostname: string) {
    exists route | route in Serving.RoutesOf(apps) :: hostname in HostsOf(route)
  }

  ghost predicate RoutableIn(db: Database, hostname: string) {
    exists row | row in db.domains :: row.hostname == hostname && Routable(db, row)
  }

  lemma {:induction false} GroupHostnames(db: Database, app: nat, rows: seq<Domains.Row>, hostname: string)
    requires hostname in RoutableHostnames(db, app, rows)
    ensures exists row | row in rows :: row.hostname == hostname && Routable(db, row)
  {
    if hostname in RoutableHostnames(db, app, rows[1..]) {
      GroupHostnames(db, app, rows[1..], hostname);
    } else {
      assert rows[0] in rows;
    }
  }

  lemma FixedListNothing(s: Settings, facts: Facts, route: Json)
    requires Serving.FixedRoute(route, s, facts)
    ensures HostsOf(route) == []
  {
  }

  lemma AppRouteListsRoutable(db: Database, lookup: Lookup, s: Settings, route: Json, hostname: string)
    requires route in AppRoutes(GroupsFrom(db, lookup, 0), s) && hostname in HostsOf(route)
    ensures RoutableIn(db, hostname)
  {
    var app := Agreement.AppRouteComesFrom(db, lookup, s, route);
    Agreement.RouteShape(GroupOf(db, lookup, app).value, s);
    GroupHostnames(db, app, db.domains, hostname);
  }

  lemma BuiltIsFrom(db: Database, lookup: Lookup, s: Settings)
    ensures BuiltFrom(BuildApps(db, lookup, s), db)
  {
    var apps := BuildApps(db, lookup, s);
    forall hostname | Lists(apps, hostname)
      ensures RoutableIn(db, hostname)
    {
      var route :| route in Serving.RoutesOf(apps) && hostname in HostsOf(route);
      OwnOrigin.BuiltRoute(db, lookup, s, route);
      if Serving.FixedRoute(route, s, EdgeFacts(db, lookup, s)) {
        FixedListNothing(s, EdgeFacts(db, lookup, s), route);
      } else {
        AppRouteListsRoutable(db, lookup, s, route, hostname);
      }
    }
  }

  lemma BootstrapRoutes(settings: Settings)
    ensures Serving.RoutesOf(Bootstrap(settings)) == [HEALTH, UNMATCHED]
  {
    OwnOrigin.RoutesOfBuilt(settings, []);
    assert Field(Bootstrap(settings), HTTP) == Field(Apps(settings, []), HTTP);
  }

  lemma OwnRoutesListNothing()
    ensures HostsOf(HEALTH) == [] && HostsOf(UNMATCHED) == []
  {
  }

  /** After a restart no hostname of an application is listed, whatever the database holds. */
  lemma BootstrapListsNothing(settings: Settings, hostname: string)
    ensures !Lists(Bootstrap(settings), hostname)
  {
    BootstrapRoutes(settings);
    OwnRoutesListNothing();
  }

  // --- the invariant -------------------------------------------------------------------------------

  /** The configuration lists only what was routable at that commit. */
  ghost predicate BuiltFrom(apps: Json, db: Database) {
    forall hostname :: Lists(apps, hostname) ==> RoutableIn(db, hostname)
  }

  ghost predicate RunOk(s: State, run: Run) {
    match run
    case Locked(at) => s.version <= at < |s.commits|
    case Built(at, version, desired) => s.version <= at <= version < |s.commits| && BuiltFrom(desired, s.commits[version])
    case Finished(at, version, result) =>
      at <= version < |s.commits| && s.version <= version && (result.Ok() ==> s.version == version)
  }

  ghost predicate Inv(s: State) {
    && s.commits != []
    && (forall id | id in s.runs :: s.holder == Some(id) && RunOk(s, s.runs[id]))
    && s.version < |s.commits| && s.confirmed <= s.version
    && BuiltFrom(s.running, s.commits[s.version])
    && (forall i | 0 <= i < |s.writes| :: s.writes[i].version <= s.version)
    && (forall i, j | 0 <= i < j < |s.writes| :: s.writes[i].version <= s.writes[j].version)
    && (forall i | 0 <= i < |s.writes| :: s.writes[i].version < |s.commits| && BuiltFrom(s.writes[i].apps, s.commits[s.writes[i].version]))
  }

  lemma SnapshotInv(s: State, id: nat, desired: Json)
    requires Inv(s) && id in s.runs && s.runs[id].Locked? && BuiltFrom(desired, s.commits[Latest(s)])
    ensures Inv(s.(runs := s.runs[id := Built(s.runs[id].lockedAt, Latest(s), desired)]))
  {
  }

  lemma ApplyInv(s: State, settings: Settings, canon: Canon, a: Action)
    requires Inv(s) && a.Apply? && a.run in s.runs && s.runs[a.run].Built?
    ensures Inv(DoApply(s, settings, canon, a, s.runs[a.run]))
  {
    var run := s.runs[a.run];
    var result := ApplyResult(s.running, run.desired, AnswerNow(s, settings, canon, run.desired, a));
    Applying(s, a.run, run, result);
  }

  /** What applying does to the state, given its result. */
  lemma Applying(s: State, id: nat, run: Run, result: Result)
    requires Inv(s) && id in s.runs && s.runs[id] == run && run.Built?
    requires result.Unchanged? ==> s.running == run.desired
    ensures Inv(s.(running := if result.Applied? then run.desired else s.running,
                   version := if result.Ok() then run.version else s.version,
                   writes := if result.Applied? then s.writes + [Write(run.version, run.desired)] else s.writes,
                   runs := s.runs[id := Finished(run.lockedAt, run.version, result)]))
  {
  }

  lemma StepInv(s: State, settings: Settings, canon: Canon, a: Action)
    requires Inv(s)
    ensures Inv(Step(s, settings, canon, a))
  {
    match a {
      case Snapshot(id, lookup) =>
        BuiltIsFrom(s.commits[Latest(s)], lookup, settings);
        if id in s.runs && s.runs[id].Locked? {
          SnapshotInv(s, id, BuildApps(s.commits[Latest(s)], lookup, settings));
        }
      case Apply(id, _, _, _) =>
        if id in s.runs && s.runs[id].Built? {
          ApplyInv(s, settings, canon, a);
        }
      case RestartCaddy =>
        forall hostname
          ensures !Lists(Bootstrap(settings), hostname)
        {
          BootstrapListsNothing(settings, hostname);
        }
      case _ => QuietInv(s, settings, canon, a);
    }
  }

  lemma QuietInv(s: State, settings: Settings, canon: Canon, a: Action)
    requires Inv(s) && !a.Snapshot? && !a.Apply? && !a.RestartCaddy?
    ensures Inv(Step(s, settings, canon, a))
  {
  }

  lemma {:induction false} RunInv(db: Database, running: Json, settings: Settings, canon: Canon, actions: seq<Action>)
    requires BuiltFrom(running, db)
    ensures Inv(RunAll(Begin(db, running), settings, canon, actions))
  {
    if actions != [] {
      var before := actions[..|actions| - 1];
      RunInv(db, running, settings, canon, before);
      StepInv(RunAll(Begin(db, running), settings, canon, before), settings, canon, actions[|actions| - 1]);
    }
  }

  // --- what it gives -------------------------------------------------------------------------------

  /** Caddy takes configurations in the order of the database states they were built from. */
  lemma WritesFollowTheDatabase(db: Database, running: Json, settings: Settings, canon: Canon, actions: seq<Action>)
    requires BuiltFrom(running, db)
    ensures var s := RunAll(Begin(db, running), settings, canon, actions);
      && (forall i, j | 0 <= i < j < |s.writes| :: s.writes[i].version <= s.writes[j].version < |s.commits|)
      && (forall id, other | id in s.runs && other in s.runs :: id == other)
  {
    RunInv(db, running, settings, canon, actions);
  }

  ghost predicate NotRoutableSince(commits: seq<Database>, deleted: nat, hostname: string) {
    forall k | deleted <= k < |commits| :: !RoutableIn(commits[k], hostname)
  }

  /**
   * After a run that took the lock once a deletion was committed has succeeded, neither the running
   * configuration nor any later write lists the hostname, as long as it is not registered again.
   */
  lemma DeletedIsUnlisted(db: Database, running: Json, settings: Settings, canon: Canon,
                          actions: seq<Action>, more: seq<Action>, deleted: nat, hostname: string)
    requires BuiltFrom(running, db)
    requires var s := RunAll(Begin(db, running), settings, canon, actions);
      var later := RunAll(s, settings, canon, more);
      s.confirmed >= deleted && NotRoutableSince(later.commits, deleted, hostname)
    ensures var s := RunAll(Begin(db, running), settings, canon, actions);
      var later := RunAll(s, settings, canon, more);
      && !Lists(later.running, hostname)
      && |s.writes| <= |later.writes|
      && forall i | |s.writes| <= i < |later.writes| :: !Lists(later.writes[i].apps, hostname)
  {
    RunInv(db, running, settings, canon, actions);
    var s := RunAll(Begin(db, running), settings, canon, actions);
    var later := RunAll(s, settings, canon, more);
    Onward(s, settings, canon, more);
    assert !Lists(later.running, hostname) by {
      assert !RoutableIn(later.commits[later.version], hostname);
    }
    forall i | |s.writes| <= i < |later.writes|
      ensures !Lists(later.writes[i].apps, hostname)
    {
      assert BuiltFrom(later.writes[i].apps, later.commits[later.writes[i].version]);
      assert !RoutableIn(later.commits[later.writes[i].version], hostname);
    }
  }

  ghost predicate Follows(s: State, later: State) {
    && s.confirmed <= later.confirmed && s.version <= later.version
    && s.writes <= later.writes && s.commits <= later.commits
    && forall i | |s.writes| <= i < |later.writes| :: later.writes[i].version >= s.version
  }

  lemma StepFollows(s: State, settings: Settings, canon: Canon, a: Action)
    requires Inv(s)
    ensures Follows(s, Step(s, settings, canon, a))
  {
  }

  lemma {:induction false} Onward(s: State, settings: Settings, canon: Canon, more: seq<Action>)
    requires Inv(s)
    ensures Inv(RunAll(s, settings, canon, more)) && Follows(s, RunAll(s, settings, canon, more))
  {
    if more != [] {
      var before := more[..|more| - 1];
      Onward(s, settings, canon, before);
      StepInv(RunAll(s, settings, canon, before), settings, canon, more[|more| - 1]);
      StepFollows(RunAll(s, settings, canon, before), settings, canon, more[|more| - 1]);
    }
  }

  /** Restarts aside, only a run that succeeds changes what is running, and then to its own configuration. */
  lemma OnlySuccessChangesCaddy(s: State, settings: Settings, canon: Canon, a: Action)
    requires Inv(s)
    ensures var after := Step(s, settings, canon, a);
      && (after.running != s.running && !a.RestartCaddy? ==>
            && a.Apply? && a.run in s.runs && s.runs[a.run].Built? && s.holder == Some(a.run)
            && after.running == s.runs[a.run].desired
            && Accepts(after.running, settings, EdgeFacts(s.commits[Latest(s)], a.lookup, settings), canon)
            && after.writes == s.writes + [Write(s.runs[a.run].version, after.running)])
      && (a.Apply? && a.run in s.runs && s.runs[a.run].Built? ==>
            (after.runs[a.run].result.Ok() <==> after.running == s.runs[a.run].desired && a.reachable))
  {
  }
}
