/** What the configuration compiled from a database contains (`app/edge/config.py`): its routes, addresses and names. */
module Compiled {
  import opened Wrappers
  import opened Texts
  import opened Json
  import opened EdgeConfig
  import opened Gateway
  import opened InternalApi
  import opened Caddy
  import opened Serving
  import opened Agreement
  import opened OwnOrigin
  import opened Shapes
  import Domains

  // --- one route per application that can be served ------------------------------------------------------

  ghost predicate FirstActive(origins: seq<Origin>, i: nat) {
    i < |origins| && origins[i].active && forall j | 0 <= j < i :: !origins[j].active
  }

  /** The application's requests go to this origin: its active one, which is verified. */
  ghost predicate ServesWith(app: Application, origin: Origin) {
    origin.verified && exists i: nat :: FirstActive(app.origins, i) && app.origins[i] == origin
  }

  lemma {:induction false} ActiveOriginIs(origins: seq<Origin>, origin: Origin)
    ensures ActiveOrigin(origins) == Some(origin) <==> exists i: nat :: FirstActive(origins, i) && origins[i] == origin
  {
    if origins != [] {
      if origins[0].active {
        assert FirstActive(origins, 0);
      } else {
        if i: nat :| FirstActive(origins, i) && origins[i] == origin {
          assert FirstActive(origins[1..], i - 1);
        }
        if i: nat :| FirstActive(origins[1..], i) && origins[1..][i] == origin {
          assert FirstActive(origins, i + 1);
        }
        ActiveOriginIs(origins[1..], origin);
      }
    }
  }

  lemma ServingOriginIs(app: Application, origin: Origin)
    ensures ServingOrigin(app) == Some(origin) <==> ServesWith(app, origin)
  {
    ActiveOriginIs(app.origins, origin);
  }

  /** A live row of the application, past its DNS proof and not suspended. */
  ghost predicate Listed(db: Database, app: nat, row: Domains.Row) {
    && row in db.domains && row.applicationId == app && row.deletedAt.None?
    && row.status in {Domains.Provisioning, Domains.Ready, Domains.AttentionRequired} && Domains.HasVerifiedClaim(row)
  }

  ghost predicate ListsExactly(hostnames: seq<string>, db: Database, app: nat) {
    forall h :: h in hostnames <==> exists row :: Listed(db, app, row) && row.hostname == h
  }

  lemma RoutableHostnamesAre(db: Database, app: nat)
    requires app < |db.apps| && db.apps[app].active
    ensures ListsExactly(RoutableHostnames(db, app, db.domains), db, app)
  {
    forall h
      ensures h in RoutableHostnames(db, app, db.domains) <==> exists row :: Listed(db, app, row) && row.hostname == h
    {
      if row :| Listed(db, app, row) && row.hostname == h {
        RoutableListed(db, app, db.domains, row);
      }
      if h in RoutableHostnames(db, app, db.domains) {
        ListedRow(db, app, db.domains, h);
      }
    }
  }

  lemma {:induction false} ListedRow(db: Database, app: nat, rows: seq<Domains.Row>, h: string)
    requires h in RoutableHostnames(db, app, rows) && forall row | row in rows :: row in db.domains
    ensures exists row :: Listed(db, app, row) && row.hostname == h
  {
    if h in RoutableHostnames(db, app, rows[1..]) {
      ListedRow(db, app, rows[1..], h);
    } else {
      assert Listed(db, app, rows[0]);
    }
  }

  /** The least of the resolved addresses, IPv4 before IPv6, at the origin's port. */
  ghost predicate PinnedTo(dial: string, origin: Origin, lookup: Lookup) {
    exists a :: a in lookup(origin.host) && dial == Dial(a, origin.port)
      && forall b | b in lookup(origin.host) :: a.version < b.version || (a.version == b.version && a.value <= b.value)
  }

  lemma PinnedIs(origin: Origin, lookup: Lookup)
    requires lookup(origin.host) != []
    ensures PinnedTo(Dial(Pinned(lookup(origin.host)), origin.port), origin, lookup)
  {
    PinnedIsFirst(lookup(origin.host));
  }

  /** The application is active, has an origin to serve it that resolves, and a hostname to serve. */
  ghost predicate Routed(db: Database, lookup: Lookup, app: nat, origin: Origin) {
    && app < |db.apps| && db.apps[app].active && ServesWith(db.apps[app], origin) && lookup(origin.host) != []
    && exists row :: Listed(db, app, row)
  }

  /** The route lists exactly the application's hostnames, under its limits, and sends them to the origin's pinned address. */
  ghost predicate RoutesFor(route: Json, db: Database, lookup: Lookup, app: nat, origin: Origin, s: Settings)
    requires app < |db.apps|
  {
    && ListsExactly(HostsOf(route), db, app)
    && exists dial :: PinnedTo(dial, origin, lookup) && RouteSays(route, db.apps[app], HostsOf(route), dial, origin, s)
  }

  lemma GroupExactly(db: Database, lookup: Lookup, app: nat, origin: Origin)
    requires app < |db.apps|
    ensures Routed(db, lookup, app, origin)
       <==> GroupOf(db, lookup, app).Some? && GroupOf(db, lookup, app).value.origin == origin
  {
    ServingOriginIs(db.apps[app], origin);
    var hostnames := RoutableHostnames(db, app, db.domains);
    if db.apps[app].active {
      RoutableHostnamesAre(db, app);
      if row :| Listed(db, app, row) {
        assert row.hostname in hostnames;
      }
      if hostnames != [] {
        assert hostnames[0] in hostnames;
      }
    }
  }

  lemma GroupRoutesFor(db: Database, lookup: Lookup, app: nat, s: Settings)
    requires app < |db.apps| && GroupOf(db, lookup, app).Some?
    ensures var g := GroupOf(db, lookup, app).value;
      RoutesFor(Route(g, s), db, lookup, app, g.origin, s)
  {
    var g := GroupOf(db, lookup, app).value;
    GroupRouteSays(g, db.apps[app], s);
    RoutableHostnamesAre(db, app);
    PinnedIs(g.origin, lookup);
  }

  /** Every application that can be served has its route in front of the last one. */
  lemma RoutedIsCompiled(db: Database, lookup: Lookup, s: Settings, app: nat, origin: Origin) returns (k: nat)
    requires Routed(db, lookup, app, origin)
    ensures var routes := RoutesOf(BuildApps(db, lookup, s));
      k < |routes| - 1 && RoutesFor(routes[k], db, lookup, app, origin, s)
  {
    GroupExactly(db, lookup, app, origin);
    var g := GroupOf(db, lookup, app).value;
    GroupComesFrom(db, lookup, 0, g);
    k := GroupPosition(db, lookup, s, g);
    GroupRoutesFor(db, lookup, app, s);
  }

  /** Every other route is a fixed one: its name is one of the edge's own. */
  ghost predicate EdgesOwn(route: Json) {
    NamedIn(route, {HEALTH_ROUTE, UNMATCHED_ROUTE, PORTAL_ROUTE, PORTAL_DENIED, OPERATOR_ROUTE, OPERATOR_DENIED, API_ROUTE})
  }

  lemma MiddleIsOwnOrApps(groups: seq<Group>, hosts: seq<string>, s: Settings, route: Json)
    requires route in MiddleRoutes(groups, hosts, s)
    ensures EdgesOwn(route) || route in AppRoutes(groups, s)
  {
  }

  ghost predicate ForSomeApplication(route: Json, db: Database, lookup: Lookup, s: Settings) {
    exists app: nat, origin :: Routed(db, lookup, app, origin) && RoutesFor(route, db, lookup, app, origin, s)
  }

  lemma AppRouteIsRouted(db: Database, lookup: Lookup, s: Settings, route: Json)
    requires route in AppRoutes(GroupsFrom(db, lookup, 0), s)
    ensures ForSomeApplication(route, db, lookup, s)
  {
    var app := AppRouteComesFrom(db, lookup, s, route);
    var origin := GroupOf(db, lookup, app).value.origin;
    GroupExactly(db, lookup, app, origin);
    GroupRoutesFor(db, lookup, app, s);
  }

  lemma EndsAreOwn()
    ensures EdgesOwn(HEALTH) && EdgesOwn(UNMATCHED)
  {
    assert Field(HEALTH, ID) == Some(Str(HEALTH_ROUTE)) && Field(UNMATCHED, ID) == Some(Str(UNMATCHED_ROUTE));
  }

  lemma InTheMiddle(middle: seq<Json>, s: Settings, route: Json)
    requires route in RoutesOf(Apps(s, middle)) && !EdgesOwn(route)
    ensures route in middle
  {
    RoutesOfBuilt(s, middle);
    EndsAreOwn();
  }

  /** And no other application has one. */
  lemma CompiledIsRouted(db: Database, lookup: Lookup, s: Settings, route: Json)
    requires route in RoutesOf(BuildApps(db, lookup, s)) && !EdgesOwn(route)
    ensures ForSomeApplication(route, db, lookup, s)
  {
    var groups, hosts := GroupsFrom(db, lookup, 0), PortalHosts(db, s);
    InTheMiddle(MiddleRoutes(groups, hosts, s), s, route);
    MiddleIsOwnOrApps(groups, hosts, s, route);
    AppRouteIsRouted(db, lookup, s, route);
  }

  // --- addresses -------------------------------------------------------------------------------------------

  /** A dialled address as it is read: what precedes the last colon, in brackets if it has colons of its own. */
  function HostPort(dial: string): Option<(string, nat)> {
    var port := PortOf(dial);
    if port.None? then None
    else
      var host := UpToLast(dial, ':');
      if |host| >= 2 && host[0] == '[' && host[|host| - 1] == ']' then Some((host[1..|host| - 1], port.value))
      else if ':' in host then None else Some((host, port.value))
  }

  function UpToLast(s: string, mark: char): string {
    if s == [] then [] else if s[|s| - 1] == mark then s[..|s| - 1] else UpToLast(s[..|s| - 1], mark)
  }

  lemma {:induction false} UpToLastAppend(prefix: string, mark: char, suffix: string)
    requires mark !in suffix
    ensures UpToLast(prefix + [mark] + suffix, mark) == prefix
  {
    var s := prefix + [mark] + suffix;
    if suffix == [] {
      assert s == prefix + [mark];
    } else {
      var shorter := suffix[..|suffix| - 1];
      UpToLastAppend(prefix, mark, shorter);
      assert s[..|s| - 1] == prefix + [mark] + shorter;
    }
  }

  /** An address of either family is dialled at its port, and nowhere else. */
  lemma DialReadsBack(a: Address, port: nat)
    requires '[' !in a.text
    ensures HostPort(Dial(a, port)) == Some((a.text, port))
  {
    var host := if ':' in a.text then "[" + a.text + "]" else a.text;
    DialPort(a, port);
    UpToLastAppend(host, ':', Decimal(port));
    assert Dial(a, port) == host + [':'] + Decimal(port);
    if ':' in a.text {
      assert host[1..|host| - 1] == a.text;
    }
  }

  // --- what the API says may be dialled ------------------------------------------------------------------

  /** An active application's active, verified origin of that name resolves to the address. */
  ghost predicate Resolves(db: Database, lookup: Lookup, host: string, dial: string) {
    exists app, origin, a :: && app in db.apps && app.active && origin in app.origins && origin.active && origin.verified
      && origin.host == host && a in lookup(host) && dial == Dial(a, origin.port)
  }

  lemma {:induction false} CurrentAre(origins: seq<Origin>, origin: Origin)
    ensures origin in Current(origins) <==> origin in origins && origin.active && origin.verified
  {
    if origins != [] {
      CurrentAre(origins[1..], origin);
    }
  }

  lemma {:induction false} OfferedAre(apps: seq<Application>, origin: Origin)
    ensures origin in OfferedOrigins(apps)
       <==> exists app :: app in apps && app.active && origin in app.origins && origin.active && origin.verified
  {
    if apps != [] {
      OfferedAre(apps[1..], origin);
      CurrentAre(apps[0].origins, origin);
    }
  }

  lemma {:induction false} OfferComesFrom(origins: seq<Origin>, lookup: Lookup, offer: Offer)
    requires offer in Offers(origins, lookup)
    ensures exists origin, a :: origin in origins && a in lookup(origin.host) && offer == Offer(origin.host, Dial(a, origin.port))
  {
    if offer in OffersOf(origins[0], lookup) {
      var i :| 0 <= i < |OffersOf(origins[0], lookup)| && OffersOf(origins[0], lookup)[i] == offer;
      assert lookup(origins[0].host)[i] in lookup(origins[0].host);
    } else {
      OfferComesFrom(origins[1..], lookup, offer);
    }
  }

  lemma OffersAre(db: Database, lookup: Lookup, host: string, dial: string)
    ensures Offer(host, dial) in Offers(OfferedOrigins(db.apps), lookup) <==> Resolves(db, lookup, host, dial)
  {
    var origins := OfferedOrigins(db.apps);
    if Offer(host, dial) in Offers(origins, lookup) {
      OfferComesFrom(origins, lookup, Offer(host, dial));
      var origin, a :| origin in origins && a in lookup(origin.host) && Offer(host, dial) == Offer(origin.host, Dial(a, origin.port));
      OfferedAre(db.apps, origin);
    }
    if app, origin, a :| && app in db.apps && app.active && origin in app.origins && origin.active && origin.verified
                         && origin.host == host && a in lookup(host) && dial == Dial(a, origin.port) {
      OfferedAre(db.apps, origin);
      OriginOffers(origins, lookup, origin, a);
    }
  }

  /** The address is listed with the greatest of the names that resolve to it. */
  ghost predicate UpstreamSays(db: Database, lookup: Lookup, upstreams: map<string, string>, dial: string) {
    && (dial in upstreams <==> exists host :: Resolves(db, lookup, host, dial))
    && (dial in upstreams ==> Resolves(db, lookup, upstreams[dial], dial))
    && (dial in upstreams ==> forall host | Resolves(db, lookup, host, dial) :: AtMost(host, upstreams[dial]))
  }

  /** The facts the gateway checks against, in terms of the database. */
  lemma UpstreamsAre(db: Database, lookup: Lookup, s: Settings, dial: string)
    ensures UpstreamSays(db, lookup, EdgeFacts(db, lookup, s).upstreams, dial)
  {
    var offers := Offers(OfferedOrigins(db.apps), lookup);
    UpstreamIsGreatest(offers, dial);
    forall host
      ensures Offer(host, dial) in offers <==> Resolves(db, lookup, host, dial)
    {
      OffersAre(db, lookup, host, dial);
    }
  }

  // --- the edge's own names ----------------------------------------------------------------------------------

  /** The edge's hostname, or what an active application's domains are told to point at, now or in a live claim. */
  ghost predicate EdgeName(db: Database, s: Settings, h: string) {
    || (h != "" && h == s.edgeHostname)
    || exists app :: 0 <= app < |db.apps| && db.apps[app].active && PointedAt(db, app, h)
  }

  ghost predicate PointedAt(db: Database, app: nat, h: string)
    requires app < |db.apps|
  {
    || h == db.apps[app].cnameTarget
    || exists row :: row in db.domains && ClaimNames(row, app, h)
  }

  ghost predicate ClaimNames(row: Domains.Row, app: nat, h: string) {
    row.applicationId == app && row.deletedAt.None? && Domains.ActiveClaim(row).Some? && Domains.ActiveClaim(row).value.cnameTarget == h
  }

  ghost predicate NoRepeats(names: seq<string>) {
    forall i, j | 0 <= i < j < |names| :: names[i] != names[j]
  }

  lemma {:induction false} LiveTargetsAre(app: nat, rows: seq<Domains.Row>, h: string)
    ensures h in LiveTargets(app, rows) <==> exists row :: row in rows && ClaimNames(row, app, h)
  {
    if rows != [] {
      LiveTargetsAre(app, rows[1..], h);
      assert rows[0] in rows;
    }
  }

  lemma {:induction false} WithNewAre(names: seq<string>, more: seq<string>, h: string)
    requires NoRepeats(names)
    ensures NoRepeats(WithNew(names, more))
    ensures h in WithNew(names, more) <==> h in names || h in more
    decreases |more|
  {
    if more != [] {
      WithNewAre(if more[0] in names then names else names + [more[0]], more[1..], h);
    }
  }

  lemma EdgeNamesAre(db: Database, app: nat, h: string)
    requires app < |db.apps|
    ensures h in EdgeNames(db, app) <==> PointedAt(db, app, h)
  {
    WithNewAre([db.apps[app].cnameTarget], LiveTargets(app, db.domains), h);
    LiveTargetsAre(app, db.domains, h);
  }

  lemma {:induction false} NamesBeforeAre(db: Database, s: Settings, before: nat, h: string)
    requires before <= |db.apps|
    ensures NoRepeats(NamesBefore(db, s, before))
    ensures h in NamesBefore(db, s, before) <==>
      ((h != "" && h == s.edgeHostname) || exists app :: 0 <= app < before && db.apps[app].active && PointedAt(db, app, h))
  {
    if before > 0 {
      NamesBeforeAre(db, s, before - 1, h);
      EdgeNamesAre(db, before - 1, h);
      WithNewAre(NamesBefore(db, s, before - 1), EdgeNames(db, before - 1), h);
    }
  }

  lemma OnceEach(names: seq<string>)
    requires NoRepeats(names)
    ensures NoRepeats(Sorted(names))
  {
    AtMostIsTotalOrder();
    SortBySorts(AtMost, names);
    var sorted := Sorted(names);
    forall i, j | 0 <= i < j < |sorted|
      ensures sorted[i] != sorted[j]
    {
      if sorted[i] == sorted[j] {
        TwiceCounts(sorted, i, j);
        OnceCounts(names, sorted[i]);
      }
    }
  }

  lemma TwiceCounts(names: seq<string>, i: nat, j: nat)
    requires i < j < |names| && names[i] == names[j]
    ensures multiset(names)[names[i]] >= 2
  {
    assert names == names[..j] + names[j..];
    assert names[i] == names[..j][i] && names[i] in multiset(names[..j]);
    assert names[j] == names[j..][0] && names[j] in multiset(names[j..]);
  }

  lemma {:induction false} OnceCounts(names: seq<string>, h: string)
    requires NoRepeats(names)
    ensures multiset(names)[h] <= 1
  {
    if names != [] {
      OnceCounts(names[1..], h);
      assert names == [names[0]] + names[1..];
      if h == names[0] {
        assert h !in names[1..];
        assert h !in multiset(names[1..]);
      }
    }
  }

  /** The names the fixed routes answer on: exactly the edge's own, each once and in order. */
  lemma PortalHostsAre(db: Database, s: Settings)
    ensures var hosts := PortalHosts(db, s);
      InOrder(AtMost, hosts) && NoRepeats(hosts) && forall h :: h in hosts <==> EdgeName(db, s, h)
  {
    AtMostIsTotalOrder();
    var names := NamesBefore(db, s, |db.apps|);
    SortBySorts(AtMost, names);
    NamesBeforeAre(db, s, |db.apps|, "");
    OnceEach(names);
    forall h
      ensures h in PortalHosts(db, s) <==> EdgeName(db, s, h)
    {
      SortByHasSame(AtMost, names, h);
      NamesBeforeAre(db, s, |db.apps|, h);
    }
  }

  // --- the first and the last route ----------------------------------------------------------------------------

  /** The health path is answered before anything else, and what no route wants is not found. */
  lemma EdgeAnswers(m: Matching, db: Database, api: Api, trusted: bool, apps: Json, s: Settings, facts: Facts, canon: Canon,
                    rq: Request)
    requires Accepts(apps, s, facts, canon)
    ensures m.paths(HEALTH_PATH, rq.uri) ==> Serve(m, db, api, trusted, apps, rq) == Answered(204)
    ensures var routes := RoutesOf(apps);
      (forall i | 0 <= i < |routes| - 1 :: !Matches(m, routes[i], rq)) ==> Serve(m, db, api, trusted, apps, rq) == Answered(404)
  {
    AcceptedEnds(apps, s, facts, canon);
    HealthFirst(m, Answers(db, api, trusted), RoutesOf(apps), rq);
    NotFoundLast(m, Answers(db, api, trusted), RoutesOf(apps), rq);
  }

  lemma AcceptedEnds(apps: Json, s: Settings, facts: Facts, canon: Canon)
    requires Accepts(apps, s, facts, canon)
    ensures var routes := RoutesOf(apps);
      routes != [] && routes[0] == HEALTH && routes[|routes| - 1] == UNMATCHED
  {
    AcceptedRoutes(apps, s, facts, canon);
  }

  lemma HealthFirst(m: Matching, upstream: Upstream, routes: seq<Json>, rq: Request)
    requires routes != [] && routes[0] == HEALTH
    ensures m.paths(HEALTH_PATH, rq.uri) ==> RunRoutes(m, upstream, routes, rq) == Answered(204)
  {
    if m.paths(HEALTH_PATH, rq.uri) {
      HealthMatches(m, rq);
      HealthSettles(m, upstream, rq);
      FirstMatch(m, upstream, routes, 0, rq);
    }
  }

  lemma NotFoundLast(m: Matching, upstream: Upstream, routes: seq<Json>, rq: Request)
    requires routes != [] && routes[|routes| - 1] == UNMATCHED
    ensures (forall i | 0 <= i < |routes| - 1 :: !Matches(m, routes[i], rq)) ==>
              RunRoutes(m, upstream, routes, rq) == Answered(404)
  {
    if forall i | 0 <= i < |routes| - 1 :: !Matches(m, routes[i], rq) {
      assert Matches(m, UNMATCHED, rq);
      UnmatchedSettles(m, upstream, rq);
      FirstMatch(m, upstream, routes, |routes| - 1, rq);
    }
  }

  lemma HealthMatches(m: Matching, rq: Request)
    ensures Matches(m, HEALTH, rq) <==> m.paths(HEALTH_PATH, rq.uri)
  {
    var only := Obj(map[PATH := Words([HEALTH_PATH])]);
    assert Items(Field(HEALTH, MATCH)) == [only];
    assert Field(only, PATH) == Some(Words([HEALTH_PATH]));
    assert TextsIn(Some(Words([HEALTH_PATH]))) == [HEALTH_PATH];
    if m.paths(HEALTH_PATH, rq.uri) {
      assert HEALTH_PATH in TextsIn(Field(only, PATH));
      assert SetMatches(m, only, rq);
      assert only in [only];
    }
  }

  /** The headers a client cannot forge. */
  lemma ReservedAre()
    ensures RESERVED == {ASSERTION_HEADER, EDGE_HOST_HEADER, EDGE_SNI_HEADER, EDGE_REQUEST_ID_HEADER, EDGE_TOKEN_HEADER,
                         REFERENCE_HEADER, APPLICATION_HEADER}
  {
    assert forall name :: name in STRIPPED ==> name in RESERVED;
  }

  // --- requests that reach their origin ------------------------------------------------------------------------

  /** A portal, operator or API path, on one of the edge's own names. */
  ghost predicate ForTheEdge(m: Matching, facts: Facts, rq: Request) {
    && (exists h | h in facts.edgeNames :: m.hosts(h, rq.host))
    && (OnPath(m, PORTAL_PATHS, rq) || OnPath(m, OPERATOR_PATHS, rq) || OnPath(m, API_PATHS, rq))
  }

  lemma PairMatch(m: Matching, route: Json, name: Text, denied: Text, paths: seq<Text>, hosts: seq<string>, ranges: seq<string>,
                  dial: string, rq: Request)
    requires route in AllowlistedRoutes(name, denied, paths, hosts, ranges, dial) && Matches(m, route, rq)
    ensures OnPath(m, paths, rq) && exists h | h in hosts :: m.hosts(h, rq.host)
  {
    var pair := AllowlistedRoutes(name, denied, paths, hosts, ranges, dial);
    if route == pair[0] {
      FixedMatch(m, route, hosts, paths, ranges, rq);
    } else {
      FixedMatch(m, route, hosts, paths, [], rq);
    }
  }

  lemma FixedIsForTheEdge(m: Matching, route: Json, s: Settings, facts: Facts, rq: Request)
    requires FixedRoute(route, s, facts) && route != UNMATCHED && Matches(m, route, rq)
    ensures m.paths(HEALTH_PATH, rq.uri) || ForTheEdge(m, facts, rq)
  {
    if route == HEALTH {
      HealthMatches(m, rq);
    } else if FromPortal(route, s, facts) {
      var hosts :| Named(hosts, facts) && route in PortalRoutes(hosts, facts.portalRanges, s.assertUpstream);
      PairMatch(m, route, PORTAL_ROUTE, PORTAL_DENIED, PORTAL_PATHS, hosts, facts.portalRanges, s.assertUpstream, rq);
    } else if FromOperator(route, s, facts) {
      var hosts :| Named(hosts, facts) && route in OperatorRoutes(hosts, facts.operatorRanges, s.assertUpstream);
      PairMatch(m, route, OPERATOR_ROUTE, OPERATOR_DENIED, OPERATOR_PATHS, hosts, facts.operatorRanges, s.assertUpstream, rq);
    } else {
      var hosts :| Named(hosts, facts) && route in ApiRoutes(hosts, s.assertUpstream);
      ApiFields(route, hosts, s.assertUpstream);
      FixedMatch(m, route, hosts, API_PATHS, [], rq);
    }
  }

  lemma OnlyTheLastIsUnmatched(db: Database, lookup: Lookup, s: Settings, i: nat)
    requires i < |RoutesOf(BuildApps(db, lookup, s))| - 1
    ensures RoutesOf(BuildApps(db, lookup, s))[i] != UNMATCHED
  {
    var middle := MiddleRoutes(GroupsFrom(db, lookup, 0), PortalHosts(db, s), s);
    RoutesOfBuilt(s, middle);
    UnmatchedIsNoMiddle(db, lookup, s);
    UnmatchedIsLast(middle, i);
  }

  lemma UnmatchedIsLast(middle: seq<Json>, i: nat)
    requires UNMATCHED !in middle && i <= |middle|
    ensures ([HEALTH] + middle + [UNMATCHED])[i] != UNMATCHED
  {
    assert Field(HEALTH, ID) == Some(Str(HEALTH_ROUTE)) && Field(UNMATCHED, ID) == Some(Str(UNMATCHED_ROUTE));
  }

  lemma FixedNames(hosts: seq<string>, s: Settings)
    ensures UNMATCHED !in PortalRoutes(hosts, s.portalRanges, s.assertUpstream)
    ensures UNMATCHED !in OperatorRoutes(hosts, s.operatorRanges, s.assertUpstream)
    ensures UNMATCHED !in ApiRoutes(hosts, s.assertUpstream)
  {
    assert Field(UNMATCHED, ID) == Some(Str(UNMATCHED_ROUTE));
  }

  lemma UnmatchedIsNoMiddle(db: Database, lookup: Lookup, s: Settings)
    ensures UNMATCHED !in MiddleRoutes(GroupsFrom(db, lookup, 0), PortalHosts(db, s), s)
  {
    FixedNames(PortalHosts(db, s), s);
    if UNMATCHED in AppRoutes(GroupsFrom(db, lookup, 0), s) {
      var app := AppRouteComesFrom(db, lookup, s, UNMATCHED);
      RouteShape(GroupOf(db, lookup, app).value, s);
    }
  }

  /** A request the API allows, for a listed hostname, reaches its owner's origin, unless its path is one of the edge's own. */
  lemma AllowedRequestsAreServed(m: Matching, db: Database, lookup: Lookup, api: Api, trusted: bool, rq: Request,
                                 app: nat, origin: Origin, row: Domains.Row)
    requires DatabaseOk(db, api.canon) && HostsMatchCanonically(m, api.canon)
    requires Accepts(BuildApps(db, lookup, api.settings), api.settings, EdgeFacts(db, lookup, api.settings), api.canon)
    requires Routed(db, lookup, app, origin) && Listed(db, app, row)
    requires m.hosts(row.hostname, rq.host) && Allowed(db, api, trusted, rq) && forall limits :: !m.overLimit(limits)
    requires !m.paths(HEALTH_PATH, rq.uri) && !ForTheEdge(m, EdgeFacts(db, lookup, api.settings), rq)
    ensures var o := Serve(m, db, api, trusted, BuildApps(db, lookup, api.settings), rq);
      ToAnOrigin(db, api, EdgeFacts(db, lookup, api.settings), rq, o) && ToItsOwner(db, lookup, api, rq, o)
  {
    var s, facts := api.settings, EdgeFacts(db, lookup, api.settings);
    var routes := RoutesOf(BuildApps(db, lookup, s));
    GroupExactly(db, lookup, app, origin);
    forall i | 0 <= i < |routes| - 1 && FixedRoute(routes[i], s, facts)
      ensures !Matches(m, routes[i], rq)
    {
      OnlyTheLastIsUnmatched(db, lookup, s, i);
      if Matches(m, routes[i], rq) {
        FixedIsForTheEdge(m, routes[i], s, facts, rq);
      }
    }
    AllowedRequestsReachTheirOrigin(m, db, lookup, api, trusted, rq, row);
  }
}
