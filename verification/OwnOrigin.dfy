/** While the configuration is the one built from the current state, a hostname is served by its own owner's origin. */
module OwnOrigin {
  import opened Wrappers
  import opened Json
  import opened EdgeConfig
  import opened Gateway
  import opened InternalApi
  import opened Caddy
  import opened Serving
  import opened Agreement
  import Domains

  /** A canonical name matches the hosts whose canonical form it is. */
  ghost predicate HostsMatchCanonically(m: Matching, canon: Canon) {
    forall name: string, host: string :: canon(name) == Some(name) && m.hosts(name, host) ==> canon(HostName(host)) == Some(name)
  }

  /** The request went to the pinned address of the serving origin of the application that owns its host. */
  ghost predicate ToItsOwner(db: Database, lookup: Lookup, api: Api, rq: Request, o: Outcome) {
    var hostname := api.canon(HostName(rq.host));
    && o.Forwarded? && hostname.Some?
    && var i := FindLive(db.domains, hostname.value);
    && i < |db.domains|
    && var app := db.domains[i].applicationId;
    && app < |db.apps| && ServingOrigin(db.apps[app]).Some?
    && var origin := ServingOrigin(db.apps[app]).value;
    && lookup(origin.host) != [] && o.dial == Dial(Pinned(lookup(origin.host)), origin.port)
  }

  ghost predicate ServedByOwner(m: Matching, db: Database, lookup: Lookup, api: Api, facts: Facts, rq: Request, o: Outcome) {
    || o.Answered?
    || ToTheManagementApi(m, api.settings, facts, rq, o)
    || (ToAnOrigin(db, api, facts, rq, o) && ToItsOwner(db, lookup, api, rq, o))
  }

  lemma MatchedHost(m: Matching, g: Group, s: Settings, rq: Request)
    requires Matches(m, Route(g, s), rq)
    ensures exists h | h in g.hostnames :: m.hosts(h, rq.host)
  {
  }

  lemma TheLiveRow(rows: seq<Domains.Row>, row: Domains.Row)
    requires LiveOnce(rows) && row in rows && row.deletedAt.None?
    ensures var i := FindLive(rows, row.hostname);
      i < |rows| && rows[i] == row
  {
  }

  lemma LastHandler(g: Group, s: Settings)
    requires g.hostnames != []
    ensures var handlers := Items(Field(Route(g, s), HANDLE));
      handlers != [] && handlers[|handlers| - 1] == OriginProxy(g)
  {
  }

  lemma MatchedOwner(m: Matching, db: Database, lookup: Lookup, api: Api, app: nat, rq: Request, o: Outcome)
    requires DatabaseOk(db, api.canon) && HostsMatchCanonically(m, api.canon)
    requires app < |db.apps| && GroupOf(db, lookup, app).Some?
    requires exists h | h in GroupOf(db, lookup, app).value.hostnames :: m.hosts(h, rq.host)
    requires o.Forwarded? && o.dial == GroupOf(db, lookup, app).value.dial
    ensures ToItsOwner(db, lookup, api, rq, o)
  {
    var h :| h in GroupOf(db, lookup, app).value.hostnames && m.hosts(h, rq.host);
    RoutableRow(db, app, db.domains, h);
    var row :| row in db.domains && row.deletedAt.None? && row.applicationId == app && row.hostname == h;
    TheLiveRow(db.domains, row);
  }

  lemma RouteDial(g: Group, s: Settings)
    requires g.hostnames != []
    ensures var handlers := Items(Field(Route(g, s), HANDLE));
      handlers != [] && ProxyDial(handlers[|handlers| - 1]) == Some(g.dial)
  {
    LastHandler(g, s);
    ProxyFields(g);
  }

  lemma SettledOwner(m: Matching, db: Database, lookup: Lookup, api: Api, facts: Facts, app: nat, rq: Request, proxy: Json,
                     o: Outcome)
    requires DatabaseOk(db, api.canon) && HostsMatchCanonically(m, api.canon)
    requires app < |db.apps| && GroupOf(db, lookup, app).Some?
    requires exists h | h in GroupOf(db, lookup, app).value.hostnames :: m.hosts(h, rq.host)
    requires SettledBy(db, api, facts, rq, proxy, o) && ProxyDial(proxy) == Some(GroupOf(db, lookup, app).value.dial)
    ensures o.Answered? || (ToAnOrigin(db, api, facts, rq, o) && ToItsOwner(db, lookup, api, rq, o))
  {
    if !o.Answered? {
      MatchedOwner(m, db, lookup, api, app, rq, o);
    }
  }

  lemma GroupRouteSettles(m: Matching, db: Database, lookup: Lookup, api: Api, trusted: bool, facts: Facts, app: nat, rq: Request)
    requires DatabaseOk(db, api.canon) && HostsMatchCanonically(m, api.canon) && rq.uri.Lit?
    requires app < |db.apps| && GroupOf(db, lookup, app).Some?
    requires var route := Route(GroupOf(db, lookup, app).value, api.settings);
      AcceptsAppRoute(route, api.settings, facts) && Matches(m, route, rq)
    ensures var route := Route(GroupOf(db, lookup, app).value, api.settings);
      var o := RunHandlers(m, Answers(db, api, trusted), Items(Field(route, HANDLE)), rq);
      o.Answered? || (ToAnOrigin(db, api, facts, rq, o) && ToItsOwner(db, lookup, api, rq, o))
  {
    var g := GroupOf(db, lookup, app).value;
    var handlers := Items(Field(Route(g, api.settings), HANDLE));
    AppRouteSettles(m, db, api, trusted, api.settings, facts, Route(g, api.settings), rq);
    RouteDial(g, api.settings);
    MatchedHost(m, g, api.settings, rq);
    SettledOwner(m, db, lookup, api, facts, app, rq, handlers[|handlers| - 1],
                 RunHandlers(m, Answers(db, api, trusted), handlers, rq));
  }

  lemma BuiltMiddle(db: Database, lookup: Lookup, s: Settings, route: Json)
    requires route in MiddleRoutes(GroupsFrom(db, lookup, 0), PortalHosts(db, s), s)
    ensures FixedRoute(route, s, EdgeFacts(db, lookup, s)) || route in AppRoutes(GroupsFrom(db, lookup, 0), s)
  {
  }

  lemma BuiltRoute(db: Database, lookup: Lookup, s: Settings, route: Json)
    requires route in RoutesOf(BuildApps(db, lookup, s))
    ensures FixedRoute(route, s, EdgeFacts(db, lookup, s)) || route in AppRoutes(GroupsFrom(db, lookup, 0), s)
  {
    RoutesOfBuilt(s, MiddleRoutes(GroupsFrom(db, lookup, 0), PortalHosts(db, s), s));
    if route != HEALTH && route != UNMATCHED {
      BuiltMiddle(db, lookup, s, route);
    }
  }

  lemma RoutesOfBuilt(s: Settings, middle: seq<Json>)
    ensures RoutesOf(Apps(s, middle)) == [HEALTH] + middle + [UNMATCHED]
  {
    HttpFields(s, middle);
    assert Field(Apps(s, middle), HTTP) == Some(Obj(HttpApp(s, middle)));
    assert Field(Obj(Server(s, middle)), ROUTES) == Some(Arr([HEALTH] + middle + [UNMATCHED]));
  }

  /** A request that leaves the edge under the current configuration goes to its own owner's origin. */
  lemma CurrentConfigurationServesTheOwner(m: Matching, db: Database, lookup: Lookup, api: Api, trusted: bool, rq: Request)
    requires DatabaseOk(db, api.canon) && HostsMatchCanonically(m, api.canon) && rq.uri.Lit?
    requires Accepts(BuildApps(db, lookup, api.settings), api.settings, EdgeFacts(db, lookup, api.settings), api.canon)
    ensures var facts := EdgeFacts(db, lookup, api.settings);
      ServedByOwner(m, db, lookup, api, facts, rq, Serve(m, db, api, trusted, BuildApps(db, lookup, api.settings), rq))
  {
    var s := api.settings;
    var facts, groups := EdgeFacts(db, lookup, s), GroupsFrom(db, lookup, 0);
    var routes := RoutesOf(BuildApps(db, lookup, s));
    var ok := (o: Outcome) => ServedByOwner(m, db, lookup, api, facts, rq, o);
    CompilerAndValidatorAgree(db, lookup, s, api.canon);
    forall i | 0 <= i < |routes|
      ensures Settles(m, Answers(db, api, trusted), routes[i], rq, ok)
    {
      BuiltRoute(db, lookup, s, routes[i]);
      if Matches(m, routes[i], rq) {
        if FixedRoute(routes[i], s, facts) {
          FixedRouteSettles(m, Answers(db, api, trusted), s, facts, routes[i], rq);
        } else {
          BuiltAppRouteSettles(m, db, lookup, api, trusted, routes[i], rq);
        }
      }
    }
    RoutesSettle(m, Answers(db, api, trusted), routes, rq, ok);
  }

  lemma BuiltAppRouteSettles(m: Matching, db: Database, lookup: Lookup, api: Api, trusted: bool, route: Json, rq: Request)
    requires DatabaseOk(db, api.canon) && HostsMatchCanonically(m, api.canon) && rq.uri.Lit?
    requires Accepts(BuildApps(db, lookup, api.settings), api.settings, EdgeFacts(db, lookup, api.settings), api.canon)
    requires route in AppRoutes(GroupsFrom(db, lookup, 0), api.settings) && Matches(m, route, rq)
    ensures AcceptsAppRoute(route, api.settings, EdgeFacts(db, lookup, api.settings))
    ensures var o := RunHandlers(m, Answers(db, api, trusted), Items(Field(route, HANDLE)), rq);
      o.Answered? || (ToAnOrigin(db, api, EdgeFacts(db, lookup, api.settings), rq, o) && ToItsOwner(db, lookup, api, rq, o))
  {
    var app := AppRouteComesFrom(db, lookup, api.settings, route);
    AcceptedGroup(db, lookup, api.settings, api.canon, GroupOf(db, lookup, app).value);
    GroupRouteSettles(m, db, lookup, api, trusted, EdgeFacts(db, lookup, api.settings), app, rq);
  }

  lemma RoutedIsOffered(db: Database, lookup: Lookup, s: Settings, canon: Canon, g: Group)
    requires DatabaseOk(db, canon) && g in GroupsFrom(db, lookup, 0)
    requires (g.origin.scheme.PlainHttp? && g.origin.hostMode.CustomerHost?)
          || !AnotherNameWins(g, Offers(OfferedOrigins(db.apps), lookup))
    ensures GroupOk(g) && Offered(g, EdgeFacts(db, lookup, s))
  {
    GroupComesFrom(db, lookup, 0, g);
    var app :| 0 <= app < |db.apps| && GroupOf(db, lookup, app) == Some(g);
    GroupIsOffered(db, lookup, app, canon);
    OfferedUnlessAnotherWins(g, Offers(OfferedOrigins(db.apps), lookup), EdgeFacts(db, lookup, s));
  }

  lemma AcceptedGroup(db: Database, lookup: Lookup, s: Settings, canon: Canon, g: Group)
    requires DatabaseOk(db, canon) && g in GroupsFrom(db, lookup, 0)
    requires Accepts(BuildApps(db, lookup, s), s, EdgeFacts(db, lookup, s), canon)
    ensures AcceptsAppRoute(Route(g, s), s, EdgeFacts(db, lookup, s))
  {
    CompilerAndValidatorAgree(db, lookup, s, canon);
    RoutedIsOffered(db, lookup, s, canon, g);
    RouteAccepted(g, s, EdgeFacts(db, lookup, s));
  }

  // --- and is served at all --------------------------------------------------------------------------------

  lemma {:induction false} RoutableListed(db: Database, app: nat, rows: seq<Domains.Row>, row: Domains.Row)
    requires row in rows && row.applicationId == app && Routable(db, row)
    ensures row.hostname in RoutableHostnames(db, app, rows)
  {
    if rows[0] != row {
      RoutableListed(db, app, rows[1..], row);
    }
  }

  lemma {:induction false} LeastMatch(m: Matching, routes: seq<Json>, k: nat, rq: Request) returns (j: nat)
    requires k < |routes| && Matches(m, routes[k], rq)
    ensures j <= k && Matches(m, routes[j], rq) && forall i | 0 <= i < j :: !Matches(m, routes[i], rq)
  {
    if Matches(m, routes[0], rq) {
      j := 0;
    } else {
      var rest := LeastMatch(m, routes[1..], k - 1, rq);
      j := rest + 1;
      assert forall i | 1 <= i < j :: routes[i] == routes[1..][i - 1];
    }
  }

  lemma RouteMatchesHost(m: Matching, g: Group, s: Settings, rq: Request, h: string)
    requires h in g.hostnames && m.hosts(h, rq.host)
    ensures Matches(m, Route(g, s), rq)
  {
    var only := Obj(map[HOST := Strings(g.hostnames)]);
    assert Items(Field(Route(g, s), MATCH)) == [only];
    var i :| 0 <= i < |g.hostnames| && g.hostnames[i] == h;
    assert Field(only, HOST) == Some(Strings(g.hostnames));
    assert TextsIn(Some(Strings(g.hostnames)))[i] == Lit(h);
    assert SetMatches(m, only, rq);
    assert only in [only];
  }

  lemma AppRoutePosition(groups: seq<Group>, hosts: seq<string>, s: Settings, i: nat) returns (k: nat)
    requires i < |AppRoutes(groups, s)|
    ensures var routes := RoutesOf(Apps(s, MiddleRoutes(groups, hosts, s)));
      k < |routes| - 1 && routes[k] == AppRoutes(groups, s)[i]
  {
    var middle := MiddleRoutes(groups, hosts, s);
    RoutesOfBuilt(s, middle);
    var fixed := AppRoutesLast(groups, hosts, s);
    k := 1 + fixed + i;
  }

  lemma AppRoutesLast(groups: seq<Group>, hosts: seq<string>, s: Settings) returns (fixed: nat)
    ensures var middle, apps := MiddleRoutes(groups, hosts, s), AppRoutes(groups, s);
      |middle| == fixed + |apps| && forall i | 0 <= i < |apps| :: middle[fixed + i] == apps[i]
  {
    fixed := |MiddleRoutes(groups, hosts, s)| - |AppRoutes(groups, s)|;
  }

  lemma GroupPosition(db: Database, lookup: Lookup, s: Settings, g: Group) returns (k: nat)
    requires g in GroupsFrom(db, lookup, 0)
    ensures var routes := RoutesOf(BuildApps(db, lookup, s));
      k < |routes| - 1 && routes[k] == Route(g, s)
  {
    var groups := GroupsFrom(db, lookup, 0);
    forall other | other in groups
      ensures other.hostnames != []
    {
      GroupComesFrom(db, lookup, 0, other);
    }
    AppRoutesAre(groups, s);
    var i :| 0 <= i < |groups| && groups[i] == g;
    k := AppRoutePosition(groups, PortalHosts(db, s), s, i);
  }

  /** Where the route of a routable row's application stands. */
  lemma OwnRoute(m: Matching, db: Database, lookup: Lookup, s: Settings, row: Domains.Row, rq: Request) returns (k: nat)
    requires row in db.domains && Routable(db, row) && GroupOf(db, lookup, row.applicationId).Some?
    requires m.hosts(row.hostname, rq.host)
    ensures var routes := RoutesOf(BuildApps(db, lookup, s));
      k < |routes| - 1 && Matches(m, routes[k], rq)
  {
    var g := GroupOf(db, lookup, row.applicationId).value;
    RoutableListed(db, row.applicationId, db.domains, row);
    RouteMatchesHost(m, g, s, rq, row.hostname);
    GroupComesFrom(db, lookup, 0, g);
    k := GroupPosition(db, lookup, s, g);
  }

  /** No fixed route but the last applies: not the health path, and no management path on an edge name. */
  ghost predicate NoFixedRoute(m: Matching, routes: seq<Json>, s: Settings, facts: Facts, rq: Request) {
    forall i | 0 <= i < |routes| - 1 && FixedRoute(routes[i], s, facts) :: !Matches(m, routes[i], rq)
  }

  /** A request the API allows, on a routable hostname whose origin resolves, reaches that origin. */
  lemma AllowedRequestsReachTheirOrigin(m: Matching, db: Database, lookup: Lookup, api: Api, trusted: bool, rq: Request,
                                        row: Domains.Row)
    requires DatabaseOk(db, api.canon) && HostsMatchCanonically(m, api.canon)
    requires Accepts(BuildApps(db, lookup, api.settings), api.settings, EdgeFacts(db, lookup, api.settings), api.canon)
    requires row in db.domains && Routable(db, row) && GroupOf(db, lookup, row.applicationId).Some?
    requires m.hosts(row.hostname, rq.host) && Allowed(db, api, trusted, rq) && forall limits :: !m.overLimit(limits)
    requires NoFixedRoute(m, RoutesOf(BuildApps(db, lookup, api.settings)), api.settings, EdgeFacts(db, lookup, api.settings), rq)
    ensures var o := Serve(m, db, api, trusted, BuildApps(db, lookup, api.settings), rq);
      ToAnOrigin(db, api, EdgeFacts(db, lookup, api.settings), rq, o) && ToItsOwner(db, lookup, api, rq, o)
  {
    var s, facts := api.settings, EdgeFacts(db, lookup, api.settings);
    var routes := RoutesOf(BuildApps(db, lookup, s));
    var k := OwnRoute(m, db, lookup, s, row, rq);
    var j := LeastMatch(m, routes, k, rq);
    BuiltRoute(db, lookup, s, routes[j]);
    BuiltAppRouteSettles(m, db, lookup, api, trusted, routes[j], rq);
    AppRouteForwards(m, db, api, trusted, facts, routes[j], rq);
    FirstMatch(m, Answers(db, api, trusted), routes, j, rq);
  }
}
