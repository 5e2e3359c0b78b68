/**
 * The database state compiled into Caddy's `apps` subtree (`app/edge/config.py`). The functions are
 * the specification; the methods build the same lists step by step.
 */
module EdgeConfig {
  import opened Wrappers
  import opened Texts
  import opened Json
  import Domains

  const MAX_RATE := 1_000_000

  // What the edge and the management API share as settings. An empty `edgeToken` is no token.
  datatype Settings = Settings(
    httpPort: nat, httpsPort: nat, disableHttps: bool, internalIssuer: bool, acmeEmail: string,
    askUrl: string, edgeToken: string, assertUpstream: string,
    portalRanges: seq<string>, operatorRanges: seq<string>, publicApi: bool,
    edgeHostname: string, hasAssertionKeys: bool)

  datatype Scheme = PlainHttp | Https
  datatype HostMode = CustomerHost | OriginHost

  datatype Origin = Origin(host: string, port: nat, scheme: Scheme, hostMode: HostMode, verified: bool, active: bool)

  datatype Application = Application(
    slug: string, active: bool, cnameTarget: string,
    perMinute: Option<int>, perSecond: Option<int>, origins: seq<Origin>)

  // Applications in the order of their slugs and domains in the order of their hostnames; a domain
  // names its application by its place in `apps`.
  datatype Database = Database(apps: seq<Application>, domains: seq<Domains.Row>)

  // One address of an origin: its text, whether it is IPv4 or IPv6, and its numeric value.
  datatype Address = Address(text: string, version: nat, value: nat)

  // What an origin's name resolves to, or nothing while the answer is not acceptable.
  type Lookup = string -> seq<Address>

  // --- reading the database ----------------------------------------------------------------------

  function ActiveOrigin(origins: seq<Origin>): Option<Origin> {
    if origins == [] then None else if origins[0].active then Some(origins[0]) else ActiveOrigin(origins[1..])
  }

  function ServingOrigin(app: Application): Option<Origin> {
    var origin := ActiveOrigin(app.origins);
    if origin.Some? && origin.value.verified then origin else None
  }

  predicate OwnerActive(db: Database, row: Domains.Row) {
    row.applicationId < |db.apps| && db.apps[row.applicationId].active
  }

  predicate Routable(db: Database, row: Domains.Row) {
    && row.deletedAt.None?
    && row.status in {Domains.Provisioning, Domains.Ready, Domains.AttentionRequired}
    && OwnerActive(db, row)
    && Domains.HasVerifiedClaim(row)
  }

  predicate Serveable(db: Database, row: Domains.Row) {
    && row.deletedAt.None?
    && row.status.Ready?
    && OwnerActive(db, row)
    && Domains.HasVerifiedClaim(row)
    && Domains.ChecksPassing(row)
  }

  // --- addresses ---------------------------------------------------------------------------------

  function Dial(address: Address, port: nat): string {
    (if ':' in address.text then "[" + address.text + "]" else address.text) + ":" + Decimal(port)
  }

  predicate DialsBefore(a: Address, b: Address) {
    a.version < b.version || (a.version == b.version && a.value < b.value)
  }

  /** The address the edge dials: the first in the order of version and value, whatever order DNS answers in. */
  function Pinned(addresses: seq<Address>): Address
    requires addresses != []
  {
    if |addresses| == 1 then addresses[0]
    else
      var rest := Pinned(addresses[1..]);
      if DialsBefore(rest, addresses[0]) then rest else addresses[0]
  }

  // --- route groups ------------------------------------------------------------------------------

  datatype Group = Group(
    slug: string, dial: string, origin: Origin, hostnames: seq<string>,
    perMinute: Option<int>, perSecond: Option<int>)

  function RoutableHostnames(db: Database, app: nat, rows: seq<Domains.Row>): seq<string> {
    if rows == [] then []
    else
      var first := if rows[0].applicationId == app && Routable(db, rows[0]) then [rows[0].hostname] else [];
      first + RoutableHostnames(db, app, rows[1..])
  }

  /** The route group of one application, if it is active, has a serving origin that resolves, and routable hostnames. */
  function GroupOf(db: Database, lookup: Lookup, app: nat): Option<Group>
    requires app < |db.apps|
  {
    var a := db.apps[app];
    var origin := ServingOrigin(a);
    var hostnames := RoutableHostnames(db, app, db.domains);
    if !a.active || origin.None? || hostnames == [] || lookup(origin.value.host) == [] then None
    else
      var dial := Dial(Pinned(lookup(origin.value.host)), origin.value.port);
      Some(Group(a.slug, dial, origin.value, hostnames, a.perMinute, a.perSecond))
  }

  function MaybeOne(group: Option<Group>): seq<Group> {
    if group.Some? then [group.value] else []
  }

  /** The groups of the applications from `app` on. */
  function GroupsFrom(db: Database, lookup: Lookup, app: nat): seq<Group>
    requires app <= |db.apps|
    decreases |db.apps| - app
  {
    if app == |db.apps| then []
    else
      MaybeOne(GroupOf(db, lookup, app)) + GroupsFrom(db, lookup, app + 1)
  }

  lemma NextGroup(db: Database, lookup: Lookup, app: nat, before: seq<Group>)
    requires app < |db.apps|
    ensures before + MaybeOne(GroupOf(db, lookup, app)) + GroupsFrom(db, lookup, app + 1) == before + GroupsFrom(db, lookup, app)
  {
  }

  method RouteGroups(db: Database, lookup: Lookup) returns (groups: seq<Group>)
    ensures groups == GroupsFrom(db, lookup, 0)
  {
    groups := [];
    for app := 0 to |db.apps|
      invariant groups + GroupsFrom(db, lookup, app) == GroupsFrom(db, lookup, 0)
    {
      ghost var before := groups;
      var origin := ServingOrigin(db.apps[app]);
      if db.apps[app].active && origin.Some? {
        var hostnames := RoutableHostnames(db, app, db.domains);
        var addresses := lookup(origin.value.host);
        if hostnames != [] && addresses != [] {
          var dial := Dial(Pinned(addresses), origin.value.port);
          groups := groups + [Group(db.apps[app].slug, dial, origin.value, hostnames,
                                    db.apps[app].perMinute, db.apps[app].perSecond)];
        }
      }
      assert groups == before + MaybeOne(GroupOf(db, lookup, app));
      NextGroup(db, lookup, app, before);
    }
  }

  // --- the edge's own names ----------------------------------------------------------------------

  function WithNew(names: seq<string>, more: seq<string>): seq<string>
    decreases |more|
  {
    if more == [] then names
    else WithNew(if more[0] in names then names else names + [more[0]], more[1..])
  }

  /** The targets the live claims of an application's live domains name. */
  function LiveTargets(app: nat, rows: seq<Domains.Row>): seq<string> {
    if rows == [] then []
    else
      var claim := Domains.ActiveClaim(rows[0]);
      (if rows[0].applicationId == app && rows[0].deletedAt.None? && claim.Some? then [claim.value.cnameTarget] else [])
        + LiveTargets(app, rows[1..])
  }

  function EdgeNames(db: Database, app: nat): seq<string>
    requires app < |db.apps|
  {
    WithNew([db.apps[app].cnameTarget], LiveTargets(app, db.domains))
  }

  function NamesBefore(db: Database, s: Settings, app: nat): seq<string>
    requires app <= |db.apps|
  {
    if app == 0 then if s.edgeHostname != "" then [s.edgeHostname] else []
    else
      var names := NamesBefore(db, s, app - 1);
      if db.apps[app - 1].active then WithNew(names, EdgeNames(db, app - 1)) else names
  }

  function PortalHosts(db: Database, s: Settings): seq<string> {
    Sorted(NamesBefore(db, s, |db.apps|))
  }

  method CollectPortalHosts(db: Database, s: Settings) returns (hosts: seq<string>)
    ensures hosts == PortalHosts(db, s)
  {
    var names: seq<string> := if s.edgeHostname != "" then [s.edgeHostname] else [];
    for app := 0 to |db.apps|
      invariant names == NamesBefore(db, s, app)
    {
      if db.apps[app].active {
        var more := EdgeNames(db, app);
        ghost var before := names;
        for i := 0 to |more|
          invariant WithNew(names, more[i..]) == WithNew(before, more)
        {
          if more[i] !in names {
            names := names + [more[i]];
          }
          assert more[i..][1..] == more[i + 1..];
        }
        assert more[|more|..] == [];
      }
    }
    hosts := Sorted(names);
  }

  // --- handlers and routes -----------------------------------------------------------------------

  const STRIPPED: seq<Text> := [ASSERTION_HEADER, EDGE_HOST_HEADER, EDGE_SNI_HEADER, EDGE_REQUEST_ID_HEADER, EDGE_TOKEN_HEADER,
                                REFERENCE_HEADER, APPLICATION_HEADER]

  const STRIP: Json := Obj(map[HANDLER := Str(HEADERS), REQUEST := Obj(map[DELETE := Words(STRIPPED)])])

  function SetHeaders(values: map<Text, Json>): Json {
    Obj(map[REQUEST := Obj(map[SET := Obj(values)])])
  }

  function Single(text: Text): Json {
    Arr([Str(text)])
  }

  function AssertionHeaders(s: Settings): map<Text, Json> {
    var headers := map[
      EDGE_HOST_HEADER := Single(REQUEST_HOST), EDGE_SNI_HEADER := Single(REQUEST_SNI), EDGE_REQUEST_ID_HEADER := Single(REQUEST_UUID),
      FORWARDED_METHOD := Single(REQUEST_METHOD), FORWARDED_URI := Single(REQUEST_URI)];
    if s.edgeToken != "" then headers[EDGE_TOKEN_HEADER := Single(Lit(s.edgeToken))] else headers
  }

  const KEEP_ASSERTION: Json := Obj(map[
    HANDLER := Str(HEADERS),
    REQUEST := Obj(map[SET := Obj(map[ASSERTION_HEADER := Single(ASSERTION_REPLY)])])])

  const ON_SUCCESS: Json := Obj(map[
    MATCH := Obj(map[STATUS_CODE := Arr([Num(2)])]),
    ROUTES := Arr([Obj(map[HANDLE := Arr([KEEP_ASSERTION])])])])

  function UpstreamTo(dial: string): Json {
    Arr([Obj(map[DIAL := Str(Lit(dial))])])
  }

  function AssertStep(s: Settings): Json {
    Obj(map[
      HANDLER := Str(REVERSE_PROXY),
      UPSTREAMS := UpstreamTo(s.assertUpstream),
      REWRITE := Obj(map[METHOD_KEY := Str(GET), URI := Str(ASSERT_PATH)]),
      HEADERS := SetHeaders(AssertionHeaders(s)),
      HANDLE_RESPONSE := Arr([ON_SUCCESS])])
  }

  function OwnName(host: string, port: nat, tls: bool): string {
    if port == (if tls then 443 else 80) then host else host + ":" + Decimal(port)
  }

  function ProxyHeaders(host: Text): Json {
    SetHeaders(map[HOST_HEADER := Single(host), FORWARDED_HOST := Single(REQUEST_HOST), FORWARDED_PROTO := Single(REQUEST_SCHEME)])
  }

  function TlsTo(host: string): Json {
    Obj(map[PROTOCOL := Str(HTTP), TLS := Obj(map[SERVER_NAME := Str(Lit(host))])])
  }

  function OriginProxy(group: Group): Json {
    var origin := group.origin;
    var host := if origin.hostMode.OriginHost? then Lit(OwnName(origin.host, origin.port, origin.scheme.Https?))
                else REQUEST_HOST;
    var proxy := map[
      HANDLER := Str(REVERSE_PROXY), UPSTREAMS := UpstreamTo(group.dial), HEADERS := ProxyHeaders(host)];
    Obj(if origin.scheme.Https? then proxy[TRANSPORT := TlsTo(origin.host)] else proxy)
  }

  function Zone(routeId: string, window: Text, count: int): Json {
    Obj(map[KEY := Str(Lit(routeId)), WINDOW := Str(window), MAX_EVENTS := Num(count)])
  }

  /** One zone per limit that is set and not zero; no handler without zones. */
  function RateLimiter(routeId: string, perMinute: Option<int>, perSecond: Option<int>): seq<Json> {
    var minute := if perMinute.Some? && perMinute.value != 0
                  then map[Lit(routeId + "-minute") := Zone(routeId, ONE_MINUTE, perMinute.value)] else map[];
    var zones := if perSecond.Some? && perSecond.value != 0
                 then minute[Lit(routeId + "-second") := Zone(routeId, ONE_SECOND, perSecond.value)] else minute;
    if zones == map[] then [] else [Obj(map[HANDLER := Str(RATE_LIMIT), RATE_LIMITS := Obj(zones)])]
  }

  function RouteId(slug: string): string {
    "app-" + slug
  }

  function Route(group: Group, s: Settings): Json {
    var id := RouteId(group.slug);
    var handle := RateLimiter(id, group.perMinute, group.perSecond) + [STRIP, AssertStep(s), OriginProxy(group)];
    Obj(map[
      ID := Str(Lit(id)),
      MATCH := Arr([Obj(map[HOST := Strings(group.hostnames)])]),
      HANDLE := Arr(handle),
      TERMINAL := Bool(true)])
  }

  function AppRoutes(groups: seq<Group>, s: Settings): seq<Json> {
    if groups == [] then [] else [Route(groups[0], s)] + AppRoutes(groups[1..], s)
  }

  const PORTAL_PATHS: seq<Text> := [PORTAL_PATH, PORTAL_TREE]
  const OPERATOR_PATHS: seq<Text> := [OPERATOR_PATH, OPERATOR_TREE]
  const API_PATHS: seq<Text> := [API_PATH, API_TREE, CONNECT_TREE]

  function ToManagement(upstream: string): Json {
    Obj(map[HANDLER := Str(REVERSE_PROXY), UPSTREAMS := UpstreamTo(upstream),
            HEADERS := SetHeaders(map[HOST_HEADER := Single(REQUEST_HOST)])])
  }

  function Answer(status: int): Json {
    Obj(map[HANDLER := Str(STATIC_RESPONSE), STATUS_CODE := Num(status)])
  }

  /** Allowed addresses are proxied to the management API, everyone else is refused on the same paths. */
  function AllowlistedRoutes(name: Text, denied: Text, paths: seq<Text>, hosts: seq<string>, ranges: seq<string>,
                             upstream: string): seq<Json> {
    if ranges == [] || hosts == [] then []
    else
      [Obj(map[
         ID := Str(name),
         MATCH := Arr([Obj(map[HOST := Strings(hosts), PATH := Words(paths),
                               REMOTE_IP := Obj(map[RANGES := Strings(ranges)])])]),
         HANDLE := Arr([ToManagement(upstream)]),
         TERMINAL := Bool(true)]),
       Obj(map[
         ID := Str(denied),
         MATCH := Arr([Obj(map[HOST := Strings(hosts), PATH := Words(paths)])]),
         HANDLE := Arr([Answer(403)]),
         TERMINAL := Bool(true)])]
  }

  function PortalRoutes(hosts: seq<string>, ranges: seq<string>, upstream: string): seq<Json> {
    AllowlistedRoutes(PORTAL_ROUTE, PORTAL_DENIED, PORTAL_PATHS, hosts, ranges, upstream)
  }

  function OperatorRoutes(hosts: seq<string>, ranges: seq<string>, upstream: string): seq<Json> {
    AllowlistedRoutes(OPERATOR_ROUTE, OPERATOR_DENIED, OPERATOR_PATHS, hosts, ranges, upstream)
  }

  function ApiRoutes(hosts: seq<string>, upstream: string): seq<Json> {
    if hosts == [] then []
    else
      [Obj(map[
         ID := Str(API_ROUTE),
         MATCH := Arr([Obj(map[HOST := Strings(hosts), PATH := Words(API_PATHS)])]),
         HANDLE := Arr([STRIP, ToManagement(upstream)]),
         TERMINAL := Bool(true)])]
  }

  const HEALTH: Json := Obj(map[
    ID := Str(HEALTH_ROUTE),
    MATCH := Arr([Obj(map[PATH := Words([HEALTH_PATH])])]),
    HANDLE := Arr([Obj(map[HANDLER := Str(STATIC_RESPONSE), STATUS_CODE := Num(204),
                           HEADERS := Obj(map[EDGE_HEALTH_HEADER := Single(ONE)])])]),
    TERMINAL := Bool(true)])

  const UNMATCHED: Json := Obj(map[ID := Str(UNMATCHED_ROUTE), HANDLE := Arr([Answer(404)]), TERMINAL := Bool(true)])

  function Server(s: Settings, routes: seq<Json>): map<Text, Json> {
    var server := map[LISTEN := Strings([":" + Decimal(s.httpsPort)]), ROUTES := Arr([HEALTH] + routes + [UNMATCHED])];
    if s.disableHttps then server[AUTOMATIC_HTTPS := Obj(map[DISABLE := Bool(true)])]
    else server[TLS_CONNECTION_POLICIES := Arr([Obj(map[])])][STRICT_SNI_HOST := Bool(true)]
  }

  function HttpApp(s: Settings, routes: seq<Json>): map<Text, Json> {
    var http := map[
      SERVERS := Obj(map[EDGE := Obj(Server(s, routes))]),
      METRICS := Obj(map[PER_HOST := Bool(true)])];
    var ports := if s.httpPort != 80 then http[HTTP_PORT := Num(s.httpPort)] else http;
    if s.httpsPort != 443 then ports[HTTPS_PORT := Num(s.httpsPort)] else ports
  }

  function Issuer(s: Settings): Json {
    if s.internalIssuer then Obj(map[MODULE := Str(INTERNAL)])
    else if s.acmeEmail != "" then Obj(map[MODULE := Str(ACME), EMAIL := Str(Lit(s.acmeEmail))])
    else Obj(map[MODULE := Str(ACME)])
  }

  function TlsApp(s: Settings): Json {
    Obj(map[AUTOMATION := Obj(map[
      ON_DEMAND := Obj(map[PERMISSION := Obj(map[MODULE := Str(HTTP), ENDPOINT := Str(Lit(s.askUrl))])]),
      POLICIES := Arr([Obj(map[ON_DEMAND := Bool(true), ISSUERS := Arr([Issuer(s)])])])])])
  }

  function Apps(s: Settings, routes: seq<Json>): Json {
    var apps := map[HTTP := Obj(HttpApp(s, routes))];
    Obj(if s.disableHttps then apps else apps[TLS := TlsApp(s)])
  }

  function MiddleRoutes(groups: seq<Group>, hosts: seq<string>, s: Settings): seq<Json> {
    PortalRoutes(hosts, s.portalRanges, s.assertUpstream)
      + OperatorRoutes(hosts, s.operatorRanges, s.assertUpstream)
      + (if s.publicApi then ApiRoutes(hosts, s.assertUpstream) else [])
      + AppRoutes(groups, s)
  }

  function BuildApps(db: Database, lookup: Lookup, s: Settings): Json {
    Apps(s, MiddleRoutes(GroupsFrom(db, lookup, 0), PortalHosts(db, s), s))
  }

  lemma MiddleAre(groups: seq<Group>, hosts: seq<string>, s: Settings, fixed: seq<Json>)
    requires fixed == PortalRoutes(hosts, s.portalRanges, s.assertUpstream)
      + OperatorRoutes(hosts, s.operatorRanges, s.assertUpstream)
      + (if s.publicApi then ApiRoutes(hosts, s.assertUpstream) else [])
    ensures fixed + AppRoutes(groups, s) == MiddleRoutes(groups, hosts, s)
  {
  }

  method ApplicationRoutes(groups: seq<Group>, s: Settings) returns (routes: seq<Json>)
    ensures routes == AppRoutes(groups, s)
  {
    routes := [];
    for i := 0 to |groups|
      invariant routes + AppRoutes(groups[i..], s) == AppRoutes(groups, s)
    {
      routes := routes + [Route(groups[i], s)];
      assert groups[i..][1..] == groups[i + 1..];
    }
    assert groups[|groups|..] == [] && routes + [] == routes;
  }

  method CompileApps(db: Database, lookup: Lookup, s: Settings) returns (apps: Json)
    ensures apps == BuildApps(db, lookup, s)
  {
    var groups := RouteGroups(db, lookup);
    var hosts := CollectPortalHosts(db, s);
    var routes := PortalRoutes(hosts, s.portalRanges, s.assertUpstream);
    routes := routes + OperatorRoutes(hosts, s.operatorRanges, s.assertUpstream);
    routes := routes + if s.publicApi then ApiRoutes(hosts, s.assertUpstream) else [];
    MiddleAre(groups, hosts, s, routes);
    var own := ApplicationRoutes(groups, s);
    apps := Apps(s, routes + own);
  }
}
