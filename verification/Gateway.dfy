/** The gateway's check of a configuration before Caddy sees it (`app/edge/gateway.py`). */
module Gateway {
  import opened Wrappers
  import opened Texts
  import opened Json
  import opened EdgeConfig

  // The canonical form of a hostname, or nothing when it is not a valid customer hostname.
  type Canon = string -> Option<string>

  // What the management API says the edge may route to: every dialable address with its origin's
  // name, the edge's own names, and the allowlists.
  datatype Facts = Facts(
    upstreams: map<string, string>,
    edgeNames: set<string>,
    portalRanges: seq<string>,
    publicApi: bool,
    operatorRanges: seq<string>)

  function RouteHosts(route: Json): Option<seq<string>> {
    var sets := Field(route, MATCH);
    if sets.Some? && sets.value.Arr? && sets.value.items != [] && Field(sets.value.items[0], HOST).Some?
    then StringsOf(Field(sets.value.items[0], HOST).value)
    else None
  }

  // --- the fixed routes --------------------------------------------------------------------------

  predicate NamedLikePortal(route: Json) {
    var id := Field(route, ID);
    && id.Some? && id.value.Str?
    && (id.value.text in {PORTAL_ROUTE, PORTAL_DENIED} || (id.value.text.Lit? && "portal" <= id.value.text.s))
  }

  predicate NamedIn(route: Json, names: set<Text>) {
    var id := Field(route, ID);
    id.Some? && id.value.Str? && id.value.text in names
  }

  function Expect(middle: seq<Json>, expected: seq<Json>): Option<seq<Json>> {
    if expected <= middle then Some(middle[|expected|..]) else None
  }

  predicate OnEdgeNames(hosts: Option<seq<string>>, facts: Facts) {
    hosts.Some? && forall h | h in hosts.value :: h in facts.edgeNames
  }

  /** What is left of the middle routes once a portal pair is taken off, or nothing if the pair is not allowed. */
  function TakePortal(middle: seq<Json>, s: Settings, facts: Facts): Option<seq<Json>> {
    if middle == [] || !NamedLikePortal(middle[0]) then Some(middle)
    else if facts.portalRanges == [] || !OnEdgeNames(RouteHosts(middle[0]), facts) then None
    else Expect(middle, PortalRoutes(Sorted(RouteHosts(middle[0]).value), facts.portalRanges, s.assertUpstream))
  }

  function TakeOperator(middle: seq<Json>, s: Settings, facts: Facts): Option<seq<Json>> {
    if middle == [] || !NamedIn(middle[0], {OPERATOR_ROUTE, OPERATOR_DENIED}) then Some(middle)
    else if facts.operatorRanges == [] || !OnEdgeNames(RouteHosts(middle[0]), facts) then None
    else Expect(middle, OperatorRoutes(Sorted(RouteHosts(middle[0]).value), facts.operatorRanges, s.assertUpstream))
  }

  function TakeApi(middle: seq<Json>, s: Settings, facts: Facts): Option<seq<Json>> {
    if middle == [] || !NamedIn(middle[0], {API_ROUTE}) then Some(middle)
    else if !facts.publicApi || !OnEdgeNames(RouteHosts(middle[0]), facts) then None
    else Expect(middle, ApiRoutes(Sorted(RouteHosts(middle[0]).value), s.assertUpstream))
  }

  // --- application routes ------------------------------------------------------------------------

  predicate AcceptsZone(routeId: string, name: Text, zone: Json) {
    && name in {Lit(routeId + "-minute"), Lit(routeId + "-second")}
    && Field(zone, MAX_EVENTS).Some? && Field(zone, MAX_EVENTS).value.Num?
    && var count := Field(zone, MAX_EVENTS).value.number;
    && 1 <= count <= MAX_RATE
    && zone == Zone(routeId, if name == Lit(routeId + "-minute") then ONE_MINUTE else ONE_SECOND, count)
  }

  predicate AcceptsRateLimit(routeId: string, handler: Json) {
    && HasKeys(handler, {HANDLER, RATE_LIMITS})
    && handler.fields[HANDLER] == Str(RATE_LIMIT)
    && var zones := handler.fields[RATE_LIMITS];
    && zones.Obj? && zones.fields != map[]
    && forall name | name in zones.fields :: AcceptsZone(routeId, name, zones.fields[name])
  }

  function ProxyDial(proxy: Json): Option<string> {
    var upstreams := Field(proxy, UPSTREAMS);
    if upstreams.Some? && upstreams.value.Arr? && |upstreams.value.items| == 1
       && HasKeys(upstreams.value.items[0], {DIAL})
       && upstreams.value.items[0].fields[DIAL].Str? && upstreams.value.items[0].fields[DIAL].text.Lit?
    then Some(upstreams.value.items[0].fields[DIAL].text.s)
    else None
  }

  function PortOf(dial: string): Option<nat> {
    var port := AfterLast(dial, ':');
    if port.None? then None else ParseDecimal(port.value)
  }

  /** The last handler: a proxy to an offered origin, with fixed headers and, if any, TLS to the origin's own name. */
  predicate AcceptsProxy(proxy: Json, facts: Facts) {
    && HasOnly(proxy, {HANDLER, UPSTREAMS, HEADERS, TRANSPORT})
    && Field(proxy, HANDLER) == Some(Str(REVERSE_PROXY))
    && ProxyDial(proxy).Some? && ProxyDial(proxy).value in facts.upstreams
    && PortOf(ProxyDial(proxy).value).Some?
    && var host := facts.upstreams[ProxyDial(proxy).value];
    && var transport := Field(proxy, TRANSPORT);
    && var own := OwnName(host, PortOf(ProxyDial(proxy).value).value, transport.Some?);
    && Field(proxy, HEADERS) in {Some(ProxyHeaders(REQUEST_HOST)), Some(ProxyHeaders(Lit(own)))}
    && (transport.None? || transport.value == TlsTo(host))
  }

  predicate AcceptsSteps(steps: seq<Json>, s: Settings, facts: Facts) {
    |steps| == 3 && steps[0] == STRIP && steps[1] == AssertStep(s) && AcceptsProxy(steps[2], facts)
  }

  predicate AcceptsHandle(routeId: string, handle: Json, s: Settings, facts: Facts) {
    && handle.Arr?
    && if |handle.items| == 4 then AcceptsRateLimit(routeId, handle.items[0]) && AcceptsSteps(handle.items[1..], s, facts)
       else AcceptsSteps(handle.items, s, facts)
  }

  predicate AcceptsHosts(hosts: seq<string>, seen: set<string>, canon: Canon) {
    hosts == [] ||
    (canon(hosts[0]) == Some(hosts[0]) && hosts[0] !in seen && AcceptsHosts(hosts[1..], seen + {hosts[0]}, canon))
  }

  predicate AppRouteShape(route: Json) {
    && HasKeys(route, {ID, MATCH, HANDLE, TERMINAL})
    && route.fields[ID].Str? && route.fields[ID].text.Lit? && "app-" <= route.fields[ID].text.s
    && route.fields[TERMINAL] == Bool(true)
    && route.fields[MATCH].Arr? && |route.fields[MATCH].items| == 1
    && HasKeys(route.fields[MATCH].items[0], {HOST})
    && StringsOf(route.fields[MATCH].items[0].fields[HOST]).Some?
  }

  function HostsOf(route: Json): seq<string> {
    if AppRouteShape(route) then StringsOf(route.fields[MATCH].items[0].fields[HOST]).value else []
  }

  function AllHosts(routes: seq<Json>): seq<string> {
    if routes == [] then [] else HostsOf(routes[0]) + AllHosts(routes[1..])
  }

  predicate AcceptsAppRoute(route: Json, s: Settings, facts: Facts) {
    AppRouteShape(route) && AcceptsHandle(route.fields[ID].text.s, route.fields[HANDLE], s, facts)
  }

  function AsSet(hosts: seq<string>): set<string> {
    set h | h in hosts
  }

  predicate AcceptsAppRoutes(routes: seq<Json>, s: Settings, facts: Facts, canon: Canon) {
    && (forall i | 0 <= i < |routes| :: AcceptsAppRoute(routes[i], s, facts))
    && AcceptsHosts(AllHosts(routes), {}, canon)
  }

  // --- the whole subtree -------------------------------------------------------------------------

  /** The application routes, once the fixed pairs in front of them are taken off and found in order. */
  function AppRoutesIn(middle: seq<Json>, s: Settings, facts: Facts): Option<seq<Json>> {
    var one := TakePortal(middle, s, facts);
    var two := if one.Some? then TakeOperator(one.value, s, facts) else None;
    if two.Some? then TakeApi(two.value, s, facts) else None
  }

  predicate AcceptsMiddle(middle: seq<Json>, s: Settings, facts: Facts, canon: Canon) {
    && AppRoutesIn(middle, s, facts).Some?
    && AcceptsAppRoutes(AppRoutesIn(middle, s, facts).value, s, facts, canon)
  }

  /** Every expected key but one has its expected value, and the value at that one is left open. */
  predicate AllBut(value: Json, expected: map<Text, Json>, open: Text) {
    value.Obj? && forall key | key in expected && key != open :: Field(value, key) == Some(expected[key])
  }

  function RoutesIn(server: Json): seq<Json> {
    var routes := Field(server, ROUTES);
    if routes.Some? && routes.value.Arr? then routes.value.items else []
  }

  predicate AcceptsServer(server: Json, s: Settings, facts: Facts, canon: Canon) {
    && HasOnly(server, Server(s, []).Keys) && AllBut(server, Server(s, []), ROUTES)
    && var routes := RoutesIn(server);
    && |routes| >= 2 && routes[0] == HEALTH && routes[|routes| - 1] == UNMATCHED
    && AcceptsMiddle(routes[1..|routes| - 1], s, facts, canon)
  }

  predicate AcceptsHttp(http: Json, s: Settings, facts: Facts, canon: Canon) {
    && HasKeys(http, HttpApp(s, []).Keys) && AllBut(http, HttpApp(s, []), SERVERS)
    && SERVERS in http.fields && HasKeys(http.fields[SERVERS], {EDGE})
    && AcceptsServer(http.fields[SERVERS].fields[EDGE], s, facts, canon)
  }

  /** A configuration is accepted exactly when it has the shape the reconciler produces. */
  predicate Accepts(apps: Json, s: Settings, facts: Facts, canon: Canon) {
    && HasOnly(apps, {HTTP, TLS})
    && HTTP in apps.fields && AcceptsHttp(apps.fields[HTTP], s, facts, canon)
    && Field(apps, TLS) == (if s.disableHttps then None else Some(TlsApp(s)))
  }

  // --- the check as it runs ----------------------------------------------------------------------

  lemma {:induction false} HostsInTurn(first: seq<string>, rest: seq<string>, seen: set<string>, canon: Canon)
    ensures AcceptsHosts(first + rest, seen, canon)
       <==> AcceptsHosts(first, seen, canon) && AcceptsHosts(rest, seen + AsSet(first), canon)
  {
    if first == [] {
      assert first + rest == rest && seen + AsSet(first) == seen;
    } else {
      HostsInTurn(first[1..], rest, seen + {first[0]}, canon);
      assert (first + rest)[1..] == first[1..] + rest;
      assert seen + {first[0]} + AsSet(first[1..]) == seen + AsSet(first);
    }
  }

  method ValidateHosts(hosts: seq<string>, seen: set<string>, canon: Canon) returns (ok: bool, nowSeen: set<string>)
    ensures ok == AcceptsHosts(hosts, seen, canon)
    ensures ok ==> nowSeen == seen + AsSet(hosts)
  {
    nowSeen := seen;
    for i := 0 to |hosts|
      invariant nowSeen == seen + AsSet(hosts[..i])
      invariant AcceptsHosts(hosts, seen, canon) == AcceptsHosts(hosts[i..], nowSeen, canon)
    {
      if canon(hosts[i]) != Some(hosts[i]) || hosts[i] in nowSeen {
        return false, nowSeen;
      }
      nowSeen := nowSeen + {hosts[i]};
      assert hosts[i..][1..] == hosts[i + 1..];
      assert hosts[..i + 1] == hosts[..i] + [hosts[i]];
    }
    assert hosts[..|hosts|] == hosts;
    ok := true;
  }

  method ValidateAppRoute(route: Json, seen: set<string>, s: Settings, facts: Facts, canon: Canon)
    returns (ok: bool, nowSeen: set<string>)
    ensures ok == (AcceptsAppRoute(route, s, facts) && AcceptsHosts(HostsOf(route), seen, canon))
    ensures ok ==> nowSeen == seen + AsSet(HostsOf(route))
  {
    ok, nowSeen := AppRouteShape(route), seen;
    if !ok {
      return;
    }
    ok, nowSeen := ValidateHosts(HostsOf(route), seen, canon);
    if !ok {
      return;
    }
    var handle := route.fields[HANDLE];
    if !handle.Arr? {
      ok := false;
      return;
    }
    var steps := handle.items;
    if |steps| == 4 {
      if !AcceptsRateLimit(route.fields[ID].text.s, steps[0]) {
        ok := false;
        return;
      }
      steps := steps[1..];
    }
    ok := AcceptsSteps(steps, s, facts);
  }

  method ValidateAppRoutes(middle: seq<Json>, s: Settings, facts: Facts, canon: Canon) returns (ok: bool)
    ensures ok == AcceptsAppRoutes(middle, s, facts, canon)
  {
    var seen: set<string> := {};
    for i := 0 to |middle|
      invariant forall j | 0 <= j < i :: AcceptsAppRoute(middle[j], s, facts)
      invariant AcceptsHosts(AllHosts(middle), {}, canon) == AcceptsHosts(AllHosts(middle[i..]), seen, canon)
    {
      assert middle[i..][0] == middle[i] && middle[i..][1..] == middle[i + 1..];
      HostsInTurn(HostsOf(middle[i]), AllHosts(middle[i + 1..]), seen, canon);
      var accepted, more := ValidateAppRoute(middle[i], seen, s, facts, canon);
      if !accepted {
        return false;
      }
      seen := more;
    }
    assert middle[|middle|..] == [];
    ok := true;
  }

  method ValidateMiddle(routes: seq<Json>, s: Settings, facts: Facts, canon: Canon) returns (ok: bool)
    ensures ok == AcceptsMiddle(routes, s, facts, canon)
  {
    var middle := TakePortal(routes, s, facts);
    if middle.Some? {
      middle := TakeOperator(middle.value, s, facts);
    }
    if middle.Some? {
      middle := TakeApi(middle.value, s, facts);
    }
    if middle.None? {
      return false;
    }
    ok := ValidateAppRoutes(middle.value, s, facts, canon);
  }

  method ValidateServer(server: Json, s: Settings, facts: Facts, canon: Canon) returns (ok: bool)
    ensures ok == AcceptsServer(server, s, facts, canon)
  {
    var expected := Server(s, []);
    if !HasOnly(server, expected.Keys) || !AllBut(server, expected, ROUTES) {
      return false;
    }
    var routes := RoutesIn(server);
    if |routes| < 2 || routes[0] != HEALTH || routes[|routes| - 1] != UNMATCHED {
      return false;
    }
    ok := ValidateMiddle(routes[1..|routes| - 1], s, facts, canon);
  }

  method ValidateApps(apps: Json, s: Settings, facts: Facts, canon: Canon) returns (ok: bool)
    ensures ok == Accepts(apps, s, facts, canon)
  {
    if !HasOnly(apps, {HTTP, TLS}) || HTTP !in apps.fields {
      return false;
    }
    var http := apps.fields[HTTP];
    var expected := HttpApp(s, []);
    if !HasKeys(http, expected.Keys) || !AllBut(http, expected, SERVERS) {
      return false;
    }
    if SERVERS !in http.fields || !HasKeys(http.fields[SERVERS], {EDGE}) {
      return false;
    }
    ok := ValidateServer(http.fields[SERVERS].fields[EDGE], s, facts, canon);
    if ok {
      ok := Field(apps, TLS) == if s.disableHttps then None else Some(TlsApp(s));
    }
  }

  // --- what acceptance gives ---------------------------------------------------------------------

  lemma {:induction false} AcceptedHosts(hosts: seq<string>, seen: set<string>, canon: Canon)
    requires AcceptsHosts(hosts, seen, canon)
    ensures forall h | h in hosts :: canon(h) == Some(h) && h !in seen
    ensures forall i, j | 0 <= i < j < |hosts| :: hosts[i] != hosts[j]
  {
    if hosts != [] {
      AcceptedHosts(hosts[1..], seen + {hosts[0]}, canon);
    }
  }

  lemma {:induction false} ListedHost(routes: seq<Json>, i: nat, host: string)
    requires i < |routes| && host in HostsOf(routes[i])
    ensures host in AllHosts(routes)
  {
    if i > 0 {
      ListedHost(routes[1..], i - 1, host);
    }
  }

  lemma NotAgain(first: seq<string>, rest: seq<string>, seen: set<string>, canon: Canon, host: string)
    requires AcceptsHosts(first + rest, seen, canon) && host in first
    ensures host !in rest
  {
    HostsInTurn(first, rest, seen, canon);
    AcceptedHosts(rest, seen + AsSet(first), canon);
  }

  lemma FirstAndRest(routes: seq<Json>, seen: set<string>, canon: Canon)
    requires routes != [] && AcceptsHosts(AllHosts(routes), seen, canon)
    ensures AcceptsHosts(AllHosts(routes[1..]), seen + AsSet(HostsOf(routes[0])), canon)
    ensures forall host | host in HostsOf(routes[0]) :: host !in AllHosts(routes[1..])
  {
    var first, rest := HostsOf(routes[0]), AllHosts(routes[1..]);
    HostsInTurn(first, rest, seen, canon);
    forall host | host in first
      ensures host !in rest
    {
      NotAgain(first, rest, seen, canon, host);
    }
  }

  /** No hostname is listed by two routes of an accepted configuration. */
  lemma {:induction false} HostsListedOnce(routes: seq<Json>, i: nat, j: nat, host: string, seen: set<string>, canon: Canon)
    requires AcceptsHosts(AllHosts(routes), seen, canon) && i < j < |routes| && host in HostsOf(routes[i])
    ensures host !in HostsOf(routes[j])
  {
    FirstAndRest(routes, seen, canon);
    var rest := routes[1..];
    assert rest[j - 1] == routes[j];
    if i > 0 {
      assert rest[i - 1] == routes[i];
      HostsListedOnce(rest, i - 1, j - 1, host, seen + AsSet(HostsOf(routes[0])), canon);
    } else if host in HostsOf(rest[j - 1]) {
      ListedHost(rest, j - 1, host);
    }
  }
}
