/** The compiler and the gateway's validator agree: exactly when a configuration built from the database is accepted. */
module Agreement {
  import opened Wrappers
  import opened Texts
  import opened Json
  import opened EdgeConfig
  import opened Gateway
  import opened InternalApi
  import Domains

  // --- one application route ---------------------------------------------------------------------------

  predicate LimitOk(limit: Option<int>) {
    limit.Some? ==> 1 <= limit.value <= MAX_RATE
  }

  ghost predicate GroupOk(g: Group) {
    && g.hostnames != [] && LimitOk(g.perMinute) && LimitOk(g.perSecond)
    && exists a: Address :: g.dial == Dial(a, g.origin.port)
  }

  /** The gateway's facts let the group's address be dialled the way the group does. */
  predicate Offered(g: Group, facts: Facts) {
    && g.dial in facts.upstreams
    && (facts.upstreams[g.dial] == g.origin.host || (g.origin.scheme.PlainHttp? && g.origin.hostMode.CustomerHost?))
  }

  lemma DialPort(a: Address, port: nat)
    ensures PortOf(Dial(a, port)) == Some(port)
  {
    var prefix := if ':' in a.text then "[" + a.text + "]" else a.text;
    AfterLastAppend(prefix, ':', Decimal(port));
    assert Dial(a, port) == prefix + [':'] + Decimal(port);
    DecimalRoundTrip(port);
  }

  lemma OwnNameInjective(a: string, b: string, port: nat, tls: bool)
    ensures OwnName(a, port, tls) == OwnName(b, port, tls) <==> a == b
  {
  }

  lemma ProxyHeadersInjective(a: Text, b: Text)
    ensures ProxyHeaders(a) == ProxyHeaders(b) <==> a == b
  {
    if ProxyHeaders(a) == ProxyHeaders(b) {
      var one := ProxyHeaders(a).fields[REQUEST].fields[SET].fields[HOST_HEADER];
      assert one == Single(a) && one == Single(b);
      assert one.items[0] == Str(a);
    }
  }

  lemma TlsToInjective(a: string, b: string)
    ensures TlsTo(a) == TlsTo(b) <==> a == b
  {
    if TlsTo(a) == TlsTo(b) {
      assert TlsTo(a).fields[TLS].fields[SERVER_NAME] == Str(Lit(a));
      assert TlsTo(b).fields[TLS].fields[SERVER_NAME] == Str(Lit(b));
    }
  }

  lemma ProxyFields(g: Group)
    ensures var proxy := OriginProxy(g);
      var host := if g.origin.hostMode.OriginHost? then Lit(OwnName(g.origin.host, g.origin.port, g.origin.scheme.Https?))
                  else REQUEST_HOST;
      && HasOnly(proxy, {HANDLER, UPSTREAMS, HEADERS, TRANSPORT})
      && Field(proxy, HANDLER) == Some(Str(REVERSE_PROXY))
      && ProxyDial(proxy) == Some(g.dial)
      && Field(proxy, HEADERS) == Some(ProxyHeaders(host))
      && Field(proxy, TRANSPORT) == (if g.origin.scheme.Https? then Some(TlsTo(g.origin.host)) else None)
  {
  }

  lemma ProxyAccepted(g: Group, facts: Facts)
    requires GroupOk(g)
    ensures AcceptsProxy(OriginProxy(g), facts) <==> Offered(g, facts)
  {
    var a: Address :| g.dial == Dial(a, g.origin.port);
    DialPort(a, g.origin.port);
    ProxyFields(g);
    if g.dial in facts.upstreams {
      var up := facts.upstreams[g.dial];
      var tls := g.origin.scheme.Https?;
      OwnNameInjective(g.origin.host, up, g.origin.port, tls);
      TlsToInjective(g.origin.host, up);
      var own := Lit(OwnName(g.origin.host, g.origin.port, tls));
      ProxyHeadersInjective(own, REQUEST_HOST);
      ProxyHeadersInjective(own, Lit(OwnName(up, g.origin.port, tls)));
    }
  }

  lemma ZoneNames(id: string)
    ensures Lit(id + "-minute") != Lit(id + "-second")
  {
    assert (id + "-minute")[|id| + 1] == 'm' && (id + "-second")[|id| + 1] == 's';
  }

  lemma LimiterAccepted(id: string, perMinute: Option<int>, perSecond: Option<int>)
    requires LimitOk(perMinute) && LimitOk(perSecond)
    ensures var limiter := RateLimiter(id, perMinute, perSecond);
      |limiter| <= 1 && (limiter != [] ==> AcceptsRateLimit(id, limiter[0]))
  {
    ZoneNames(id);
  }

  lemma RouteShape(g: Group, s: Settings)
    requires g.hostnames != []
    ensures var route := Route(g, s);
      && AppRouteShape(route) && HostsOf(route) == g.hostnames
      && route.fields[ID] == Str(Lit(RouteId(g.slug)))
      && route.fields[HANDLE]
         == Arr(RateLimiter(RouteId(g.slug), g.perMinute, g.perSecond) + [STRIP, AssertStep(s), OriginProxy(g)])
  {
  }

  lemma RouteAccepted(g: Group, s: Settings, facts: Facts)
    requires GroupOk(g)
    ensures AppRouteShape(Route(g, s)) && HostsOf(Route(g, s)) == g.hostnames
    ensures AcceptsAppRoute(Route(g, s), s, facts) <==> Offered(g, facts)
  {
    RouteShape(g, s);
    ProxyAccepted(g, facts);
    LimiterAccepted(RouteId(g.slug), g.perMinute, g.perSecond);
    var limiter := RateLimiter(RouteId(g.slug), g.perMinute, g.perSecond);
    var steps := [STRIP, AssertStep(s), OriginProxy(g)];
    assert AcceptsSteps(steps, s, facts) <==> Offered(g, facts);
    if limiter == [] {
      assert limiter + steps == steps;
    } else {
      assert (limiter + steps)[1..] == steps;
    }
  }

  // --- the fixed routes --------------------------------------------------------------------------------

  lemma PairHosts(name: Text, denied: Text, paths: seq<Text>, hosts: seq<string>, ranges: seq<string>, upstream: string)
    requires hosts != [] && ranges != []
    ensures var pair := AllowlistedRoutes(name, denied, paths, hosts, ranges, upstream);
      |pair| == 2 && Field(pair[0], ID) == Some(Str(name)) && RouteHosts(pair[0]) == Some(hosts)
  {
    StringsBack(hosts);
    var route := AllowlistedRoutes(name, denied, paths, hosts, ranges, upstream)[0];
    var only := Field(route, MATCH).value.items[0];
    assert Field(only, HOST) == Some(Strings(hosts));
  }

  lemma ApiHosts(hosts: seq<string>, upstream: string)
    requires hosts != []
    ensures var routes := ApiRoutes(hosts, upstream);
      |routes| == 1 && Field(routes[0], ID) == Some(Str(API_ROUTE)) && RouteHosts(routes[0]) == Some(hosts)
  {
    StringsBack(hosts);
    var only := Field(ApiRoutes(hosts, upstream)[0], MATCH).value.items[0];
    assert Field(only, HOST) == Some(Strings(hosts));
  }

  /** The facts state the same names, ranges and switches the configuration was built from. */
  ghost predicate SameSettings(hosts: seq<string>, s: Settings, facts: Facts) {
    && InOrder(AtMost, hosts) && facts.edgeNames == AsSet(hosts)
    && facts.portalRanges == s.portalRanges && facts.operatorRanges == s.operatorRanges && facts.publicApi == s.publicApi
  }

  ghost predicate AppHead(routes: seq<Json>) {
    routes == [] || exists id: string :: Field(routes[0], ID) == Some(Str(Lit("app-" + id)))
  }

  lemma AppHeadIsNoFixedRoute(routes: seq<Json>)
    requires routes != [] && AppHead(routes)
    ensures !NamedLikePortal(routes[0]) && !NamedIn(routes[0], {OPERATOR_ROUTE, OPERATOR_DENIED}) && !NamedIn(routes[0], {API_ROUTE})
  {
    var id: string :| Field(routes[0], ID) == Some(Str(Lit("app-" + id)));
    assert ("app-" + id)[0] == 'a' && "portal"[0] == 'p';
  }

  lemma ExpectFirst(expected: seq<Json>, rest: seq<Json>)
    ensures Expect(expected + rest, expected) == Some(rest)
  {
  }

  function ApiPart(hosts: seq<string>, s: Settings): seq<Json> {
    if s.publicApi then ApiRoutes(hosts, s.assertUpstream) else []
  }

  lemma ApiTaken(hosts: seq<string>, s: Settings, facts: Facts, rest: seq<Json>)
    requires SameSettings(hosts, s, facts) && AppHead(rest)
    ensures TakeApi(ApiPart(hosts, s) + rest, s, facts) == Some(rest)
  {
    var routes := ApiPart(hosts, s);
    if routes == [] {
      assert routes + rest == rest;
      if rest != [] {
        AppHeadIsNoFixedRoute(rest);
      }
    } else {
      ApiHosts(hosts, s.assertUpstream);
      SortingAgainChangesNothing(AtMost, hosts);
      assert (routes + rest)[0] == routes[0];
      ExpectFirst(routes, rest);
    }
  }

  lemma OperatorTaken(hosts: seq<string>, s: Settings, facts: Facts, rest: seq<Json>)
    requires SameSettings(hosts, s, facts)
    requires rest != [] ==> !NamedIn(rest[0], {OPERATOR_ROUTE, OPERATOR_DENIED})
    ensures TakeOperator(OperatorRoutes(hosts, s.operatorRanges, s.assertUpstream) + rest, s, facts) == Some(rest)
  {
    var routes := OperatorRoutes(hosts, s.operatorRanges, s.assertUpstream);
    if routes == [] {
      assert routes + rest == rest;
    } else {
      PairHosts(OPERATOR_ROUTE, OPERATOR_DENIED, OPERATOR_PATHS, hosts, s.operatorRanges, s.assertUpstream);
      SortingAgainChangesNothing(AtMost, hosts);
      assert (routes + rest)[0] == routes[0];
      ExpectFirst(routes, rest);
    }
  }

  lemma PortalTaken(hosts: seq<string>, s: Settings, facts: Facts, rest: seq<Json>)
    requires SameSettings(hosts, s, facts)
    requires rest != [] ==> !NamedLikePortal(rest[0])
    ensures TakePortal(PortalRoutes(hosts, s.portalRanges, s.assertUpstream) + rest, s, facts) == Some(rest)
  {
    var routes := PortalRoutes(hosts, s.portalRanges, s.assertUpstream);
    if routes == [] {
      assert routes + rest == rest;
    } else {
      PairHosts(PORTAL_ROUTE, PORTAL_DENIED, PORTAL_PATHS, hosts, s.portalRanges, s.assertUpstream);
      SortingAgainChangesNothing(AtMost, hosts);
      assert (routes + rest)[0] == routes[0];
      ExpectFirst(routes, rest);
    }
  }

  lemma HeadAfterPortal(hosts: seq<string>, s: Settings, rest: seq<Json>)
    requires AppHead(rest)
    ensures var api := ApiPart(hosts, s) + rest;
      var operator := OperatorRoutes(hosts, s.operatorRanges, s.assertUpstream) + api;
      && (api != [] ==> !NamedIn(api[0], {OPERATOR_ROUTE, OPERATOR_DENIED}) && !NamedLikePortal(api[0]))
      && (operator != [] ==> !NamedLikePortal(operator[0]))
  {
    if rest != [] {
      AppHeadIsNoFixedRoute(rest);
    }
    if hosts != [] {
      ApiHosts(hosts, s.assertUpstream);
      if s.operatorRanges != [] {
        PairHosts(OPERATOR_ROUTE, OPERATOR_DENIED, OPERATOR_PATHS, hosts, s.operatorRanges, s.assertUpstream);
      }
    }
  }

  lemma AppRoutesHead(groups: seq<Group>, s: Settings)
    ensures AppHead(AppRoutes(groups, s))
  {
  }

  lemma MiddleFromTheFront(groups: seq<Group>, hosts: seq<string>, s: Settings)
    ensures MiddleRoutes(groups, hosts, s)
         == PortalRoutes(hosts, s.portalRanges, s.assertUpstream)
          + (OperatorRoutes(hosts, s.operatorRanges, s.assertUpstream) + (ApiPart(hosts, s) + AppRoutes(groups, s)))
  {
  }

  lemma TakenInTurn(middle: seq<Json>, one: seq<Json>, two: seq<Json>, three: seq<Json>, s: Settings, facts: Facts)
    requires TakePortal(middle, s, facts) == Some(one) && TakeOperator(one, s, facts) == Some(two)
    requires TakeApi(two, s, facts) == Some(three)
    ensures AppRoutesIn(middle, s, facts) == Some(three)
  {
  }

  /** The fixed routes come off in the order they were put there, and the application routes are left. */
  lemma BuiltAppRoutes(groups: seq<Group>, hosts: seq<string>, s: Settings, facts: Facts)
    requires SameSettings(hosts, s, facts)
    ensures AppRoutesIn(MiddleRoutes(groups, hosts, s), s, facts) == Some(AppRoutes(groups, s))
  {
    var rest := AppRoutes(groups, s);
    AppRoutesHead(groups, s);
    var api := ApiPart(hosts, s) + rest;
    var operator := OperatorRoutes(hosts, s.operatorRanges, s.assertUpstream) + api;
    HeadAfterPortal(hosts, s, rest);
    ApiTaken(hosts, s, facts, rest);
    OperatorTaken(hosts, s, facts, api);
    PortalTaken(hosts, s, facts, operator);
    MiddleFromTheFront(groups, hosts, s);
    TakenInTurn(MiddleRoutes(groups, hosts, s), operator, api, rest, s, facts);
  }

  // --- the whole subtree -------------------------------------------------------------------------------

  function AllHostnames(groups: seq<Group>): seq<string> {
    if groups == [] then [] else groups[0].hostnames + AllHostnames(groups[1..])
  }

  lemma {:induction false} AppRoutesAre(groups: seq<Group>, s: Settings)
    requires forall g | g in groups :: g.hostnames != []
    ensures |AppRoutes(groups, s)| == |groups|
    ensures forall i | 0 <= i < |groups| :: AppRoutes(groups, s)[i] == Route(groups[i], s)
    ensures AllHosts(AppRoutes(groups, s)) == AllHostnames(groups)
  {
    if groups != [] {
      AppRoutesAre(groups[1..], s);
      RouteShape(groups[0], s);
      assert AppRoutes(groups, s)[1..] == AppRoutes(groups[1..], s);
    }
  }

  lemma AppRoutesAccepted(groups: seq<Group>, s: Settings, facts: Facts, canon: Canon)
    requires forall g | g in groups :: GroupOk(g)
    requires AcceptsHosts(AllHostnames(groups), {}, canon)
    ensures AcceptsAppRoutes(AppRoutes(groups, s), s, facts, canon) <==> forall g | g in groups :: Offered(g, facts)
  {
    AppRoutesAre(groups, s);
    var routes := AppRoutes(groups, s);
    forall i | 0 <= i < |groups|
      ensures AcceptsAppRoute(routes[i], s, facts) <==> Offered(groups[i], facts)
    {
      RouteAccepted(groups[i], s, facts);
    }
    if AcceptsAppRoutes(routes, s, facts, canon) {
      forall g | g in groups
        ensures Offered(g, facts)
      {
        var i :| 0 <= i < |groups| && groups[i] == g;
        assert AcceptsAppRoute(routes[i], s, facts);
      }
    }
  }

  lemma ServerAccepted(s: Settings, middle: seq<Json>, facts: Facts, canon: Canon)
    ensures AcceptsServer(Obj(Server(s, middle)), s, facts, canon) <==> AcceptsMiddle(middle, s, facts, canon)
  {
    var routes := [HEALTH] + middle + [UNMATCHED];
    var server := Obj(Server(s, middle));
    assert RoutesIn(server) == routes;
    assert routes[1..|routes| - 1] == middle;
    assert Server(s, middle).Keys == Server(s, []).Keys;
    assert AllBut(server, Server(s, []), ROUTES);
  }

  lemma HttpFields(s: Settings, middle: seq<Json>)
    ensures var http := HttpApp(s, middle);
      && http.Keys == HttpApp(s, []).Keys && AllBut(Obj(http), HttpApp(s, []), SERVERS)
      && SERVERS in http && http[SERVERS] == Obj(map[EDGE := Obj(Server(s, middle))])
  {
  }

  lemma HttpAccepted(s: Settings, middle: seq<Json>, facts: Facts, canon: Canon)
    ensures AcceptsHttp(Obj(HttpApp(s, middle)), s, facts, canon) <==> AcceptsMiddle(middle, s, facts, canon)
  {
    var http := Obj(HttpApp(s, middle));
    ServerAccepted(s, middle, facts, canon);
    HttpFields(s, middle);
  }

  lemma AppsAccepted(s: Settings, middle: seq<Json>, facts: Facts, canon: Canon)
    ensures Accepts(Apps(s, middle), s, facts, canon) <==> AcceptsMiddle(middle, s, facts, canon)
  {
    HttpAccepted(s, middle, facts, canon);
    var apps := Apps(s, middle);
    assert apps.fields[HTTP] == Obj(HttpApp(s, middle));
  }

  /** Whatever the facts, a built configuration is accepted exactly when every group's address is offered as it uses it. */
  lemma BuiltIsAccepted(groups: seq<Group>, hosts: seq<string>, s: Settings, facts: Facts, canon: Canon)
    requires SameSettings(hosts, s, facts)
    requires forall g | g in groups :: GroupOk(g)
    requires AcceptsHosts(AllHostnames(groups), {}, canon)
    ensures Accepts(Apps(s, MiddleRoutes(groups, hosts, s)), s, facts, canon) <==> forall g | g in groups :: Offered(g, facts)
  {
    BuiltAppRoutes(groups, hosts, s, facts);
    AppsAccepted(s, MiddleRoutes(groups, hosts, s), facts, canon);
    AppRoutesAccepted(groups, s, facts, canon);
  }

  // --- from the database ---------------------------------------------------------------------------------

  ghost predicate LiveOnce(rows: seq<Domains.Row>) {
    forall i, j | 0 <= i < j < |rows| && rows[i].deletedAt.None? && rows[j].deletedAt.None? ::
      rows[i].hostname != rows[j].hostname
  }

  ghost predicate LiveCanonical(rows: seq<Domains.Row>, canon: Canon) {
    forall row | row in rows && row.deletedAt.None? :: canon(row.hostname) == Some(row.hostname)
  }

  /** What registrations and the limit setter keep: one live row per canonical hostname, limits in range. */
  ghost predicate DatabaseOk(db: Database, canon: Canon) {
    && LiveOnce(db.domains) && LiveCanonical(db.domains, canon)
    && forall app | app in db.apps :: LimitOk(app.perMinute) && LimitOk(app.perSecond)
  }

  lemma {:induction false} RoutableRow(db: Database, app: nat, rows: seq<Domains.Row>, hostname: string)
    requires hostname in RoutableHostnames(db, app, rows)
    ensures exists row :: row in rows && row.deletedAt.None? && row.applicationId == app && row.hostname == hostname
  {
    if hostname !in RoutableHostnames(db, app, rows[1..]) {
      assert rows[0] in rows;
    } else {
      RoutableRow(db, app, rows[1..], hostname);
    }
  }

  lemma {:induction false} RoutableAccepted(db: Database, app: nat, rows: seq<Domains.Row>, seen: set<string>, canon: Canon)
    requires LiveOnce(rows) && LiveCanonical(rows, canon)
    requires forall row | row in rows && row.deletedAt.None? && row.applicationId == app :: row.hostname !in seen
    ensures AcceptsHosts(RoutableHostnames(db, app, rows), seen, canon)
  {
    if rows != [] {
      var row := rows[0];
      if row.applicationId == app && Routable(db, row) {
        RoutableAccepted(db, app, rows[1..], seen + {row.hostname}, canon);
        assert RoutableHostnames(db, app, rows)[1..] == RoutableHostnames(db, app, rows[1..]);
      } else {
        RoutableAccepted(db, app, rows[1..], seen, canon);
        assert RoutableHostnames(db, app, rows) == RoutableHostnames(db, app, rows[1..]);
      }
    }
  }

  lemma {:induction false} GroupsAccepted(db: Database, lookup: Lookup, app: nat, seen: set<string>, canon: Canon)
    requires app <= |db.apps| && LiveOnce(db.domains) && LiveCanonical(db.domains, canon)
    requires forall row | row in db.domains && row.deletedAt.None? && row.applicationId >= app :: row.hostname !in seen
    ensures AcceptsHosts(AllHostnames(GroupsFrom(db, lookup, app)), seen, canon)
    decreases |db.apps| - app
  {
    if app < |db.apps| {
      var group := GroupOf(db, lookup, app);
      var rest := GroupsFrom(db, lookup, app + 1);
      if group.None? {
        GroupsAccepted(db, lookup, app + 1, seen, canon);
        assert [] + rest == rest;
      } else {
        var hostnames := group.value.hostnames;
        RoutableAccepted(db, app, db.domains, seen, canon);
        forall row | row in db.domains && row.deletedAt.None? && row.applicationId >= app + 1
          ensures row.hostname !in seen + AsSet(hostnames)
        {
          if row.hostname in hostnames {
            RoutableRow(db, app, db.domains, row.hostname);
          }
        }
        GroupsAccepted(db, lookup, app + 1, seen + AsSet(hostnames), canon);
        HostsInTurn(hostnames, AllHostnames(rest), seen, canon);
        assert ([group.value] + rest)[1..] == rest;
      }
    }
  }

  lemma {:induction false} GroupComesFrom(db: Database, lookup: Lookup, app: nat, g: Group)
    requires app <= |db.apps|
    ensures g in GroupsFrom(db, lookup, app)
       <==> exists i :: app <= i < |db.apps| && GroupOf(db, lookup, i) == Some(g)
    decreases |db.apps| - app
  {
    if app < |db.apps| {
      GroupComesFrom(db, lookup, app + 1, g);
    }
  }

  /** Every application route of a built configuration is the route of some application's group. */
  lemma AppRouteComesFrom(db: Database, lookup: Lookup, s: Settings, route: Json) returns (app: nat)
    requires route in AppRoutes(GroupsFrom(db, lookup, 0), s)
    ensures app < |db.apps| && GroupOf(db, lookup, app).Some? && GroupOf(db, lookup, app).value in GroupsFrom(db, lookup, 0)
    ensures route == Route(GroupOf(db, lookup, app).value, s)
  {
    var groups := GroupsFrom(db, lookup, 0);
    forall g | g in groups
      ensures g.hostnames != []
    {
      GroupComesFrom(db, lookup, 0, g);
    }
    AppRoutesAre(groups, s);
    var k :| 0 <= k < |groups| && AppRoutes(groups, s)[k] == route;
    GroupComesFrom(db, lookup, 0, groups[k]);
    app :| 0 <= app < |db.apps| && GroupOf(db, lookup, app) == Some(groups[k]);
  }

  /** The pinned address is one of those resolved, and none of them comes before it. */
  lemma {:induction false} PinnedIsFirst(addresses: seq<Address>)
    requires addresses != []
    ensures Pinned(addresses) in addresses
    ensures forall a | a in addresses :: !DialsBefore(a, Pinned(addresses))
  {
    if |addresses| > 1 {
      PinnedIsFirst(addresses[1..]);
      assert forall a | a in addresses :: a == addresses[0] || a in addresses[1..];
    }
  }

  /** The order of the resolver's answer does not matter, so a rotating answer does not change the configuration. */
  lemma PinnedIgnoresOrder(a: seq<Address>, b: seq<Address>)
    requires a != [] && b != [] && (forall x :: x in a <==> x in b)
    requires forall x, y | x in a && y in a && x.version == y.version && x.value == y.value :: x == y
    ensures Pinned(a) == Pinned(b)
  {
    PinnedIsFirst(a);
    PinnedIsFirst(b);
  }

  lemma {:induction false} ServingIsCurrent(origins: seq<Origin>)
    requires ActiveOrigin(origins).Some? && ActiveOrigin(origins).value.verified
    ensures ActiveOrigin(origins).value in Current(origins)
  {
    if !origins[0].active {
      ServingIsCurrent(origins[1..]);
    }
  }

  lemma {:induction false} CurrentIsOffered(apps: seq<Application>, app: nat, origin: Origin)
    requires app < |apps| && apps[app].active && origin in Current(apps[app].origins)
    ensures origin in OfferedOrigins(apps)
  {
    if app > 0 {
      CurrentIsOffered(apps[1..], app - 1, origin);
    }
  }

  lemma {:induction false} OriginOffers(origins: seq<Origin>, lookup: Lookup, origin: Origin, address: Address)
    requires origin in origins && address in lookup(origin.host)
    ensures Offer(origin.host, Dial(address, origin.port)) in Offers(origins, lookup)
  {
    if origin == origins[0] {
      var i :| 0 <= i < |lookup(origin.host)| && lookup(origin.host)[i] == address;
      assert OffersOf(origin, lookup)[i] == Offer(origin.host, Dial(address, origin.port));
    } else {
      OriginOffers(origins[1..], lookup, origin, address);
    }
  }

  lemma GroupIsOffered(db: Database, lookup: Lookup, app: nat, canon: Canon)
    requires app < |db.apps| && GroupOf(db, lookup, app).Some? && DatabaseOk(db, canon)
    ensures var g := GroupOf(db, lookup, app).value;
      GroupOk(g) && Offer(g.origin.host, g.dial) in Offers(OfferedOrigins(db.apps), lookup)
  {
    var g := GroupOf(db, lookup, app).value;
    var address := Pinned(lookup(g.origin.host));
    PinnedIsFirst(lookup(g.origin.host));
    ServingIsCurrent(db.apps[app].origins);
    CurrentIsOffered(db.apps, app, g.origin);
    OriginOffers(OfferedOrigins(db.apps), lookup, g.origin, address);
    assert g.dial == Dial(address, g.origin.port);
    assert db.apps[app] in db.apps;
  }

  /** Another origin offers the group's address under a greater name, which is the one the facts then list. */
  ghost predicate AnotherNameWins(g: Group, offers: seq<Offer>) {
    exists o :: o in offers && o.dial == g.dial && o.host != g.origin.host && AtMost(g.origin.host, o.host)
  }

  lemma OfferedUnlessAnotherWins(g: Group, offers: seq<Offer>, facts: Facts)
    requires Offer(g.origin.host, g.dial) in offers && facts.upstreams == Upstreams(SortBy(OfferAtMost, offers))
    ensures Offered(g, facts)
       <==> (g.origin.scheme.PlainHttp? && g.origin.hostMode.CustomerHost?) || !AnotherNameWins(g, offers)
  {
    UpstreamIsGreatest(offers, g.dial);
    var listed := facts.upstreams[g.dial];
    if listed != g.origin.host {
      assert Offer(listed, g.dial) in offers;
    } else if AnotherNameWins(g, offers) {
      var o :| o in offers && o.dial == g.dial && o.host != g.origin.host && AtMost(g.origin.host, o.host);
      AtMostAntisymmetric(g.origin.host, o.host);
    }
  }

  /**
   * For every database state and settings, what the compiler builds is accepted by the validator,
   * with the facts the API states from the same state, exactly when no routed address is also
   * offered under a greater origin name, except where plain HTTP carries the customer's hostname.
   */
  lemma CompilerAndValidatorAgree(db: Database, lookup: Lookup, s: Settings, canon: Canon)
    requires DatabaseOk(db, canon)
    ensures var offers := Offers(OfferedOrigins(db.apps), lookup);
      Accepts(BuildApps(db, lookup, s), s, EdgeFacts(db, lookup, s), canon) <==>
        forall g | g in GroupsFrom(db, lookup, 0) ::
          (g.origin.scheme.PlainHttp? && g.origin.hostMode.CustomerHost?) || !AnotherNameWins(g, offers)
  {
    var offers := Offers(OfferedOrigins(db.apps), lookup);
    var groups, hosts, facts := GroupsFrom(db, lookup, 0), PortalHosts(db, s), EdgeFacts(db, lookup, s);
    AtMostIsTotalOrder();
    SortBySorts(AtMost, NamesBefore(db, s, |db.apps|));
    forall g | g in groups
      ensures GroupOk(g)
      ensures Offered(g, facts)
         <==> (g.origin.scheme.PlainHttp? && g.origin.hostMode.CustomerHost?) || !AnotherNameWins(g, offers)
    {
      GroupComesFrom(db, lookup, 0, g);
      var app :| 0 <= app < |db.apps| && GroupOf(db, lookup, app) == Some(g);
      GroupIsOffered(db, lookup, app, canon);
      OfferedUnlessAnotherWins(g, offers, facts);
    }
    GroupsAccepted(db, lookup, 0, {}, canon);
    BuiltIsAccepted(groups, hosts, s, facts, canon);
  }

  /** In particular it is accepted whenever origins of different names share no address. */
  lemma DistinctAddressesAreAccepted(db: Database, lookup: Lookup, s: Settings, canon: Canon)
    requires DatabaseOk(db, canon)
    requires var offers := Offers(OfferedOrigins(db.apps), lookup);
      forall a, b | a in offers && b in offers && a.dial == b.dial :: a.host == b.host
    ensures Accepts(BuildApps(db, lookup, s), s, EdgeFacts(db, lookup, s), canon)
  {
    var offers := Offers(OfferedOrigins(db.apps), lookup);
    CompilerAndValidatorAgree(db, lookup, s, canon);
    forall g | g in GroupsFrom(db, lookup, 0)
      ensures !AnotherNameWins(g, offers)
    {
      GroupComesFrom(db, lookup, 0, g);
      var app :| 0 <= app < |db.apps| && GroupOf(db, lookup, app) == Some(g);
      GroupIsOffered(db, lookup, app, canon);
    }
  }

  // --- a configuration that is refused -------------------------------------------------------------------

  function TlsOrigin(host: string): Origin {
    Origin(host, 443, Https, OriginHost, true, true)
  }

  function WithOrigin(slug: string, host: string): Application {
    Application(slug, true, "edge.example", None, None, [TlsOrigin(host)])
  }

  /** Two active applications with one origin each, and one hostname, of the first. */
  function TwoOrigins(row: Domains.Row): Database {
    Database([WithOrigin("a", "a.example"), WithOrigin("b", "b.example")], [row])
  }

  lemma BothOffered(row: Domains.Row, lookup: Lookup, address: Address)
    requires lookup("a.example") == [address] == lookup("b.example")
    ensures var offers := Offers(OfferedOrigins(TwoOrigins(row).apps), lookup);
      Offer("b.example", Dial(address, 443)) in offers
  {
    var a, b := TlsOrigin("a.example"), TlsOrigin("b.example");
    var apps := TwoOrigins(row).apps;
    assert Current([b]) == [b] && Current([a]) == [a];
    assert OfferedOrigins(apps[1..]) == [b] + OfferedOrigins(apps[1..][1..]);
    assert b in OfferedOrigins(apps);
    OriginOffers(OfferedOrigins(apps), lookup, b, address);
  }

  lemma FirstIsRouted(row: Domains.Row, lookup: Lookup, address: Address)
    requires row.deletedAt.None? && row.status.Provisioning? && Domains.HasVerifiedClaim(row) && row.applicationId == 0
    requires lookup("a.example") == [address]
    ensures var g := GroupOf(TwoOrigins(row), lookup, 0);
      g.Some? && g.value.origin == TlsOrigin("a.example") && g.value.dial == Dial(address, 443)
  {
    assert RoutableHostnames(TwoOrigins(row), 0, [row])[0] == row.hostname;
  }

  /** Both origins resolve to one address; the first application's is routed over HTTPS, and the second has the greater name. */
  lemma SharedAddressIsRefused(row: Domains.Row, address: Address, lookup: Lookup, s: Settings, canon: Canon)
    requires row.deletedAt.None? && row.status.Provisioning? && Domains.HasVerifiedClaim(row)
    requires row.applicationId == 0 && canon(row.hostname) == Some(row.hostname)
    requires lookup("a.example") == [address] == lookup("b.example")
    ensures var db := TwoOrigins(row);
      DatabaseOk(db, canon) && !Accepts(BuildApps(db, lookup, s), s, EdgeFacts(db, lookup, s), canon)
  {
    var db := TwoOrigins(row);
    FirstIsRouted(row, lookup, address);
    GroupComesFrom(db, lookup, 0, GroupOf(db, lookup, 0).value);
    BothOffered(row, lookup, address);
    assert AtMost("a.example", "b.example");
    CompilerAndValidatorAgree(db, lookup, s, canon);
  }

  lemma RefusedWith(row: Domains.Row, s: Settings, canon: Canon)
    requires row.deletedAt.None? && row.status.Provisioning? && Domains.HasVerifiedClaim(row)
    requires row.applicationId == 0 && canon(row.hostname) == Some(row.hostname)
    ensures exists db, lookup ::
      DatabaseOk(db, canon) && !Accepts(BuildApps(db, lookup, s), s, EdgeFacts(db, lookup, s), canon)
  {
    var address := Address("192.0.2.1", 4, 0xC0000201);
    var lookup: Lookup := (host: string) => [address];
    SharedAddressIsRefused(row, address, lookup, s, canon);
  }

  lemma GrandfatheredIsRoutable(row: Domains.Row, now: Domains.Time)
    requires row.deletedAt.None? && row.status.PendingDns? && |row.claims| == 1 && row.claims[0].status.ClaimPending?
    ensures var imported := Domains.ImportRow(row, true, now);
      && imported.Success?
      && imported.value.applicationId == row.applicationId && imported.value.hostname == row.hostname
      && imported.value.deletedAt.None? && imported.value.status.Provisioning? && Domains.HasVerifiedClaim(imported.value)
  {
    var recorded := Domains.Record(row, Domains.DomainImported(true), now);
    var verified := Domains.MarkClaimVerified(recorded, Domains.LegacyImport, now).value;
    assert verified.status.PendingDns? && Domains.HasVerifiedClaim(verified);
    var seen := Domains.Observation(Domains.Passing, None, 0, None, None);
    var checked := Domains.RecordCheck(verified, Domains.Ownership, seen, now).value;
    assert checked.status.PendingDns? && checked.claims == verified.claims;
  }

  /** So registrations allow a database whose configuration the gateway refuses, whatever the settings. */
  lemma SharedAddressCounterexample(s: Settings, canon: Canon)
    requires canon("shop.example") == Some("shop.example")
    ensures exists db, lookup ::
      DatabaseOk(db, canon) && !Accepts(BuildApps(db, lookup, s), s, EdgeFacts(db, lookup, s), canon)
  {
    var row := Domains.NewRow(0, "shop.example", "ref", Domains.Seed(1, "token"), "edge.example", 0);
    GrandfatheredIsRoutable(row, 0);
    RefusedWith(Domains.ImportRow(row, true, 0).value, s, canon);
  }
}
