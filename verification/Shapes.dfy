/**
 * What a configuration says, read field by field: any accepted one (`app/edge/gateway.py`), and the
 * routes of the one compiled from a database (`app/edge/config.py`).
 */
module Shapes {
  import opened Wrappers
  import opened Texts
  import opened Json
  import opened EdgeConfig
  import opened Gateway
  import opened InternalApi
  import opened Caddy
  import opened Serving
  import opened Agreement
  import opened OwnOrigin

  /** The value at the end of a path of keys. */
  function At(value: Option<Json>, path: seq<Text>): Option<Json>
    decreases |path|
  {
    if value.None? || path == [] then value else At(Field(value.value, path[0]), path[1..])
  }

  predicate OnlyKeys(value: Option<Json>, keys: set<Text>) {
    value.Some? && HasKeys(value.value, keys)
  }

  // --- an accepted configuration ---------------------------------------------------------------------

  /** Certificates are issued on demand only, when the ask endpoint permits, by the configured issuer. */
  ghost predicate OnDemandOnly(tls: Json, s: Settings) {
    && HasKeys(tls, {AUTOMATION})
    && OnlyKeys(Field(tls, AUTOMATION), {ON_DEMAND, POLICIES})
    && var automation := Field(tls, AUTOMATION).value;
    && OnlyKeys(Field(automation, ON_DEMAND), {PERMISSION})
    && var permission := Field(Field(automation, ON_DEMAND).value, PERMISSION);
    && OnlyKeys(permission, {MODULE, ENDPOINT})
    && Field(permission.value, MODULE) == Some(Str(HTTP)) && Field(permission.value, ENDPOINT) == Some(Str(Lit(s.askUrl)))
    && var policies := Field(automation, POLICIES);
    && policies.Some? && policies.value.Arr? && |policies.value.items| == 1
    && var policy := policies.value.items[0];
    && HasKeys(policy, {ON_DEMAND, ISSUERS}) && Field(policy, ON_DEMAND) == Some(Bool(true))
    && var issuers := Field(policy, ISSUERS);
    && issuers.Some? && issuers.value.Arr? && |issuers.value.items| == 1
    && IssuedBy(issuers.value.items[0], s)
  }

  ghost predicate IssuedBy(issuer: Json, s: Settings) {
    if s.internalIssuer then HasKeys(issuer, {MODULE}) && Field(issuer, MODULE) == Some(Str(INTERNAL))
    else
      && HasKeys(issuer, if s.acmeEmail == "" then {MODULE} else {MODULE, EMAIL})
      && Field(issuer, MODULE) == Some(Str(ACME))
      && (s.acmeEmail != "" ==> Field(issuer, EMAIL) == Some(Str(Lit(s.acmeEmail))))
  }

  lemma IssuerIs(s: Settings)
    ensures IssuedBy(Issuer(s), s)
  {
  }

  lemma TlsAppIs(s: Settings)
    ensures OnDemandOnly(TlsApp(s), s)
  {
    IssuerIs(s);
    var tls := TlsApp(s);
    var automation := tls.fields[AUTOMATION];
    assert Field(tls, AUTOMATION) == Some(automation);
    var demand := automation.fields[ON_DEMAND];
    assert Field(automation, ON_DEMAND) == Some(demand);
    assert Field(demand, PERMISSION) == Some(demand.fields[PERMISSION]);
  }

  /** The TLS half of an accepted configuration: nothing without HTTPS, else on demand only. */
  lemma AcceptedTls(apps: Json, s: Settings, facts: Facts, canon: Canon)
    requires Accepts(apps, s, facts, canon)
    ensures s.disableHttps ==> Field(apps, TLS) == None
    ensures !s.disableHttps ==> Field(apps, TLS).Some? && OnDemandOnly(Field(apps, TLS).value, s)
  {
    if !s.disableHttps {
      TlsAppIs(s);
    }
  }

  /** The server listens on the HTTPS port alone; with HTTPS it insists on the SNI name, without it HTTPS is off. */
  ghost predicate EdgeServer(server: Json, s: Settings) {
    && HasOnly(server, {LISTEN, ROUTES} + if s.disableHttps then {AUTOMATIC_HTTPS} else {TLS_CONNECTION_POLICIES, STRICT_SNI_HOST})
    && Field(server, LISTEN) == Some(Arr([Str(Lit(":" + Decimal(s.httpsPort)))]))
    && (if s.disableHttps then Field(server, AUTOMATIC_HTTPS) == Some(Obj(map[DISABLE := Bool(true)]))
        else Field(server, STRICT_SNI_HOST) == Some(Bool(true))
             && Field(server, TLS_CONNECTION_POLICIES) == Some(Arr([Obj(map[])])))
  }

  /** One server, per-host metrics, and the ports where they are not the usual ones. */
  ghost predicate HttpSays(http: Json, s: Settings) {
    && HasKeys(http, {SERVERS, METRICS} + (if s.httpPort == 80 then {} else {HTTP_PORT})
                                        + (if s.httpsPort == 443 then {} else {HTTPS_PORT}))
    && Field(http, METRICS) == Some(Obj(map[PER_HOST := Bool(true)]))
    && (s.httpPort != 80 ==> Field(http, HTTP_PORT) == Some(Num(s.httpPort)))
    && (s.httpsPort != 443 ==> Field(http, HTTPS_PORT) == Some(Num(s.httpsPort)))
    && OnlyKeys(Field(http, SERVERS), {EDGE}) && EdgeServer(Field(http, SERVERS).value.fields[EDGE], s)
  }

  lemma ServerFieldsAre(s: Settings)
    ensures var server := Server(s, []);
      && server.Keys == {LISTEN, ROUTES} + (if s.disableHttps then {AUTOMATIC_HTTPS} else {TLS_CONNECTION_POLICIES, STRICT_SNI_HOST})
      && server[LISTEN] == Arr([Str(Lit(":" + Decimal(s.httpsPort)))])
      && (if s.disableHttps then server[AUTOMATIC_HTTPS] == Obj(map[DISABLE := Bool(true)])
          else server[STRICT_SNI_HOST] == Bool(true) && server[TLS_CONNECTION_POLICIES] == Arr([Obj(map[])]))
  {
  }

  lemma HttpFieldsAre(s: Settings)
    ensures var http := HttpApp(s, []);
      && http.Keys == {SERVERS, METRICS} + (if s.httpPort == 80 then {} else {HTTP_PORT})
                                         + (if s.httpsPort == 443 then {} else {HTTPS_PORT})
      && http[METRICS] == Obj(map[PER_HOST := Bool(true)])
      && (s.httpPort != 80 ==> http[HTTP_PORT] == Num(s.httpPort))
      && (s.httpsPort != 443 ==> http[HTTPS_PORT] == Num(s.httpsPort))
  {
  }

  lemma AcceptedServerIs(server: Json, s: Settings, facts: Facts, canon: Canon)
    requires AcceptsServer(server, s, facts, canon)
    ensures EdgeServer(server, s)
  {
    ServerFieldsAre(s);
  }

  /** The HTTP half: what every accepted configuration has beside its routes. */
  lemma AcceptedHttp(apps: Json, s: Settings, facts: Facts, canon: Canon)
    requires Accepts(apps, s, facts, canon)
    ensures Field(apps, HTTP).Some? && HttpSays(Field(apps, HTTP).value, s)
  {
    HttpFieldsAre(s);
    var http := apps.fields[HTTP];
    AcceptedServerIs(http.fields[SERVERS].fields[EDGE], s, facts, canon);
  }

  // --- rate limits -------------------------------------------------------------------------------------

  /** A zone counts every request of the route in its window. */
  ghost predicate ZoneSays(zone: Json, routeId: string, window: Text, count: int) {
    && HasKeys(zone, {KEY, WINDOW, MAX_EVENTS})
    && Field(zone, KEY) == Some(Str(Lit(routeId))) && Field(zone, WINDOW) == Some(Str(window))
    && Field(zone, MAX_EVENTS) == Some(Num(count))
  }

  /** The zones of a rate limiter, if the handler is one. */
  function ZonesOf(handler: Json): map<Text, Json> {
    var zones := Field(handler, RATE_LIMITS);
    if Field(handler, HANDLER) == Some(Str(RATE_LIMIT)) && zones.Some? && zones.value.Obj? then zones.value.fields else map[]
  }

  /** A zone of the route for one of the two windows, with a limit of at most a million. */
  ghost predicate ZoneAllowed(zone: Json, routeId: string, name: Text) {
    && name in {Lit(routeId + "-minute"), Lit(routeId + "-second")}
    && Field(zone, MAX_EVENTS).Some? && Field(zone, MAX_EVENTS).value.Num?
    && var count := Field(zone, MAX_EVENTS).value.number;
    && 1 <= count <= 1_000_000
    && ZoneSays(zone, routeId, if name == Lit(routeId + "-minute") then ONE_MINUTE else ONE_SECOND, count)
  }

  lemma AcceptedZone(routeId: string, name: Text, zone: Json)
    requires AcceptsZone(routeId, name, zone)
    ensures ZoneAllowed(zone, routeId, name)
  {
  }

  lemma AcceptedLimiter(routeId: string, limiter: Json)
    requires AcceptsRateLimit(routeId, limiter)
    ensures ZonesOf(limiter) != map[]
    ensures forall name | name in ZonesOf(limiter) :: ZoneAllowed(ZonesOf(limiter)[name], routeId, name)
  {
    var zones := ZonesOf(limiter);
    assert zones == limiter.fields[RATE_LIMITS].fields;
    forall name | name in zones
      ensures ZoneAllowed(zones[name], routeId, name)
    {
      AcceptedZone(routeId, name, zones[name]);
    }
  }

  /** What an accepted route may limit: its own requests, in a minute or a second, to at most a million. */
  lemma AcceptedLimits(route: Json, s: Settings, facts: Facts)
    requires AcceptsAppRoute(route, s, facts)
    ensures var id, handlers := route.fields[ID].text.s, Items(Field(route, HANDLE));
      && |handlers| in {3, 4}
      && (|handlers| == 4 ==>
            && ZonesOf(handlers[0]) != map[]
            && forall name | name in ZonesOf(handlers[0]) :: ZoneAllowed(ZonesOf(handlers[0])[name], id, name))
  {
    var id, handlers := route.fields[ID].text.s, Items(Field(route, HANDLE));
    assert handlers == route.fields[HANDLE].items;
    if |handlers| == 4 {
      AcceptedLimiter(id, handlers[0]);
    }
  }

  predicate Limited(limit: Option<int>) {
    limit.Some? && limit.value != 0
  }

  /** The zones are those of the limits that are set, each with its own number and window. */
  ghost predicate ZonesSay(zones: map<Text, Json>, routeId: string, perMinute: Option<int>, perSecond: Option<int>) {
    && (forall name :: name in zones <==>
          (name == Lit(routeId + "-minute") && Limited(perMinute)) || (name == Lit(routeId + "-second") && Limited(perSecond)))
    && (Limited(perMinute) ==> ZoneSays(zones[Lit(routeId + "-minute")], routeId, ONE_MINUTE, perMinute.value))
    && (Limited(perSecond) ==> ZoneSays(zones[Lit(routeId + "-second")], routeId, ONE_SECOND, perSecond.value))
  }

  lemma LimiterSays(routeId: string, perMinute: Option<int>, perSecond: Option<int>)
    ensures var limiter := RateLimiter(routeId, perMinute, perSecond);
      && |limiter| == (if Limited(perMinute) || Limited(perSecond) then 1 else 0)
      && (limiter != [] ==> ZonesSay(ZonesOf(limiter[0]), routeId, perMinute, perSecond))
  {
    ZoneNames(routeId);
    var minute := if Limited(perMinute) then map[Lit(routeId + "-minute") := Zone(routeId, ONE_MINUTE, perMinute.value)] else map[];
    var zones := if Limited(perSecond) then minute[Lit(routeId + "-second") := Zone(routeId, ONE_SECOND, perSecond.value)]
                 else minute;
    if zones != map[] {
      assert RateLimiter(routeId, perMinute, perSecond) == [Obj(map[HANDLER := Str(RATE_LIMIT), RATE_LIMITS := Obj(zones)])];
      assert ZonesOf(Obj(map[HANDLER := Str(RATE_LIMIT), RATE_LIMITS := Obj(zones)])) == zones;
    }
    if Limited(perMinute) {
      assert Lit(routeId + "-minute") in zones;
    }
    if Limited(perSecond) {
      assert Lit(routeId + "-second") in zones;
    }
  }

  // --- a compiled route ----------------------------------------------------------------------------------

  /** The host an origin is addressed by: its name, with the port unless it is the usual one of the scheme. */
  function AddressedBy(origin: Origin): string {
    if (origin.scheme.Https? && origin.port == 443) || (origin.scheme.PlainHttp? && origin.port == 80) then origin.host
    else origin.host + ":" + Decimal(origin.port)
  }

  /** The last handler proxies to the address: TLS to the origin's own name or plain, with the Host its mode asks for. */
  ghost predicate ProxySays(proxy: Json, dial: string, origin: Origin) {
    var step, transport := StepOf(proxy), Field(proxy, TRANSPORT);
    && step.ProxyStep? && step.dial == dial && step.uri.None? && step.onReply.None? && step.edits.drops == {}
    && step.edits.sets == map[
         HOST_HEADER := if origin.hostMode.OriginHost? then Lit(AddressedBy(origin)) else REQUEST_HOST,
         FORWARDED_HOST := REQUEST_HOST, FORWARDED_PROTO := REQUEST_SCHEME]
    && (origin.scheme.PlainHttp? ==> transport.None?)
    && (origin.scheme.Https? ==>
          && OnlyKeys(transport, {PROTOCOL, TLS}) && Field(transport.value, PROTOCOL) == Some(Str(HTTP))
          && OnlyKeys(Field(transport.value, TLS), {SERVER_NAME})
          && Field(Field(transport.value, TLS).value, SERVER_NAME) == Some(Str(Lit(origin.host))))
  }

  lemma OriginProxySays(g: Group)
    ensures ProxySays(OriginProxy(g), g.dial, g.origin)
  {
    var proxy := OriginProxy(g);
    var host := if g.origin.hostMode.OriginHost? then Lit(OwnName(g.origin.host, g.origin.port, g.origin.scheme.Https?))
                else REQUEST_HOST;
    ProxyFields(g);
    DialRead(g.dial, proxy);
    ForwardingProxyRead(proxy, g.dial, ProxyHeaders(host));
    ProxyHeadersRead(host);
    if g.origin.scheme.Https? {
      TlsSays(g.origin.host);
    }
  }

  lemma TlsSays(host: string)
    ensures var transport := TlsTo(host);
      && HasKeys(transport, {PROTOCOL, TLS}) && Field(transport, PROTOCOL) == Some(Str(HTTP))
      && OnlyKeys(Field(transport, TLS), {SERVER_NAME})
      && Field(Field(transport, TLS).value, SERVER_NAME) == Some(Str(Lit(host)))
  {
  }

  /** The route of an application: its hostnames, its limits, the fixed steps, and its own origin. */
  ghost predicate RouteSays(route: Json, app: Application, hostnames: seq<string>, dial: string, origin: Origin, s: Settings) {
    var id, handlers := "app-" + app.slug, Items(Field(route, HANDLE));
    && Field(route, ID) == Some(Str(Lit(id))) && Field(route, TERMINAL) == Some(Bool(true)) && HostsOf(route) == hostnames
    && |handlers| == (if Limited(app.perMinute) || Limited(app.perSecond) then 4 else 3)
    && (|handlers| == 4 ==> ZonesSay(ZonesOf(handlers[0]), id, app.perMinute, app.perSecond))
    && StepOf(handlers[|handlers| - 3]) == EditStep(Edits(map[], RESERVED))
    && StepOf(handlers[|handlers| - 2]) == AskStep(s)
    && ProxySays(handlers[|handlers| - 1], dial, origin)
  }

  lemma GroupRouteSays(g: Group, app: Application, s: Settings)
    requires g.hostnames != [] && g.slug == app.slug && g.perMinute == app.perMinute && g.perSecond == app.perSecond
    ensures RouteSays(Route(g, s), app, g.hostnames, g.dial, g.origin, s)
  {
    RouteShape(g, s);
    LimiterSays(RouteId(g.slug), g.perMinute, g.perSecond);
    StripRead();
    AssertStepRead(s);
    OriginProxySays(g);
    var limiter := RateLimiter(RouteId(g.slug), g.perMinute, g.perSecond);
    assert Items(Field(Route(g, s), HANDLE)) == limiter + [STRIP, AssertStep(s), OriginProxy(g)];
  }
}
