/** What requests a configuration, once accepted, can ever send where: end-to-end serving safety. */
module Serving {
  import opened Wrappers
  import opened Json
  import opened Texts
  import opened EdgeConfig
  import opened Gateway
  import opened InternalApi
  import opened Caddy
  import opened AssertionToken

  // --- the edge with the management API behind it ---------------------------------------------------

  /** The text of a header the edge sends; Caddy leaves the SNI placeholder as it is without TLS. */
  function HeaderText(headers: map<Text, Value>, name: Text): string {
    if name !in headers || !headers[name].Plain? then ""
    else if headers[name].text.Lit? then headers[name].text.s
    else if headers[name].text == REQUEST_SNI then "{http.request.tls.server_name}"
    else ""
  }

  function AssertRequestOf(trusted: bool, rq: Request): AssertRequest {
    AssertRequest(trusted, HeaderText(rq.headers, EDGE_TOKEN_HEADER), HeaderText(rq.headers, EDGE_HOST_HEADER),
                  HeaderText(rq.headers, EDGE_SNI_HEADER), HeaderText(rq.headers, EDGE_REQUEST_ID_HEADER),
                  HeaderText(rq.headers, FORWARDED_URI))
  }

  function ReplyOf(decision: Result<Assertion, int>): Reply {
    match decision
    case Success(assertion) => Reply(200, map[ASSERTION_HEADER := Token(assertion)])
    case Failure(status) => Reply(status, map[])
  }

  /** The management API answers the edge from the database as it is now. */
  function Answers(db: Database, api: Api, trusted: bool): Upstream {
    (dial: string, rq: Request) =>
      if rq.uri != ASSERT_PATH then Reply(404, map[]) else ReplyOf(EdgeAssert(db, api, AssertRequestOf(trusted, rq)))
  }

  function RoutesOfHttp(http: Json): seq<Json> {
    var servers := Field(http, SERVERS);
    var server := if servers.Some? then Field(servers.value, EDGE) else None;
    if server.Some? then RoutesIn(server.value) else []
  }

  function RoutesOf(apps: Json): seq<Json> {
    var http := Field(apps, HTTP);
    if http.Some? then RoutesOfHttp(http.value) else []
  }

  function Serve(m: Matching, db: Database, api: Api, trusted: bool, apps: Json, rq: Request): Outcome {
    RunRoutes(m, Answers(db, api, trusted), RoutesOf(apps), rq)
  }

  // --- what may happen to a request -------------------------------------------------------------------

  const RESERVED: set<Text> := set name | name in STRIPPED

  /** The assertion was made now, about the live row of the requested host, which may be served. */
  ghost predicate Asserts(db: Database, api: Api, rq: Request, a: Assertion) {
    var hostname := api.canon(HostName(rq.host));
    && hostname.Some? && api.canon(hostname.value).Some?
    && var i := FindLive(db.domains, api.canon(hostname.value).value);
    && i < |db.domains|
    && var row := db.domains[i];
    && (Serveable(db, row) || (Routable(db, row) && rq.uri.Lit? && BeforeFirst(rq.uri.s, '?') == WORKSPACE_PATH))
    && ServingOrigin(db.apps[row.applicationId]).Some?
    && a.keyId == api.signer(row.applicationId)
    && a.payload.applicationId == Decimal(row.applicationId) && a.payload.domainId == Decimal(i)
    && a.payload.reference == row.reference && a.payload.hostname == hostname.value
    && a.payload.issuedAt == api.now && a.payload.expiresAt == api.now + api.ttl
    && a.payload.requestId == RequestIdOf(rq.id)
  }

  ghost predicate ToAnOrigin(db: Database, api: Api, facts: Facts, rq: Request, o: Outcome) {
    && o.Forwarded? && o.dial in facts.upstreams
    && (o.tlsName.Some? ==> o.tlsName.value == TlsTo(facts.upstreams[o.dial]))
    && ASSERTION_HEADER in o.sent.headers && o.sent.headers[ASSERTION_HEADER].Token?
    && Asserts(db, api, rq, o.sent.headers[ASSERTION_HEADER].assertion)
    && (forall h | h in o.sent.headers && h in RESERVED :: h == ASSERTION_HEADER)
    && FORWARDED_HOST in o.sent.headers && o.sent.headers[FORWARDED_HOST] == Plain(Lit(rq.host))
  }

  ghost predicate OnPath(m: Matching, paths: seq<Text>, rq: Request) {
    exists p | p in paths :: m.paths(p, rq.uri)
  }

  ghost predicate FromRange(m: Matching, ranges: seq<string>, rq: Request) {
    exists r | r in ranges :: m.peers(r, rq.peer)
  }

  /** To the management API: on one of the edge's own names, and only where it is meant to be reached. */
  ghost predicate ToTheManagementApi(m: Matching, s: Settings, facts: Facts, rq: Request, o: Outcome) {
    && o.Forwarded? && o.dial == s.assertUpstream
    && (exists h | h in facts.edgeNames :: m.hosts(h, rq.host))
    && (|| (OnPath(m, PORTAL_PATHS, rq) && FromRange(m, facts.portalRanges, rq))
        || (OnPath(m, OPERATOR_PATHS, rq) && FromRange(m, facts.operatorRanges, rq))
        || (facts.publicApi && OnPath(m, API_PATHS, rq) && o.sent.headers.Keys !! RESERVED))
  }

  ghost predicate Safe(m: Matching, db: Database, api: Api, s: Settings, facts: Facts, rq: Request, o: Outcome) {
    o.Answered? || ToTheManagementApi(m, s, facts, rq, o) || ToAnOrigin(db, api, facts, rq, o)
  }

  // --- the routes one by one ----------------------------------------------------------------------------

  /** What a matching route does with a request, when it does not pass it on. */
  ghost predicate Settles(m: Matching, upstream: Upstream, route: Json, rq: Request, ok: Outcome -> bool) {
    Matches(m, route, rq) ==>
      var o := RunHandlers(m, upstream, Items(Field(route, HANDLE)), rq);
      !o.Next? && ok(o)
  }

  lemma {:induction false} RoutesSettle(m: Matching, upstream: Upstream, routes: seq<Json>, rq: Request, ok: Outcome -> bool)
    requires ok(Answered(200))
    requires forall i | 0 <= i < |routes| :: Settles(m, upstream, routes[i], rq, ok)
    ensures ok(RunRoutes(m, upstream, routes, rq))
  {
    if routes != [] {
      assert Settles(m, upstream, routes[0], rq, ok);
      if !Matches(m, routes[0], rq) {
        RoutesSettle(m, upstream, routes[1..], rq, ok);
      }
    }
  }

  lemma FirstHandler(m: Matching, upstream: Upstream, handlers: seq<Json>, rq: Request)
    requires handlers != []
    ensures var first := RunStep(m, upstream, StepOf(handlers[0]), rq);
      RunHandlers(m, upstream, handlers, rq) ==
        if first.Next? then RunHandlers(m, upstream, handlers[1..], first.rq) else first
  {
  }

  // --- what the handlers are, once read ----------------------------------------------------------------

  lemma AnswerRead(status: int)
    ensures StepOf(Answer(status)) == AnswerStep(status)
  {
  }

  lemma SetsRead(values: map<Text, Json>)
    ensures EditsIn(Field(SetHeaders(values), REQUEST)) == Edits(FirstTexts(values), {})
  {
  }

  lemma StripRead()
    ensures StepOf(STRIP) == EditStep(Edits(map[], RESERVED))
  {
    var edits := Obj(map[DELETE := Words(STRIPPED)]);
    assert Field(STRIP, HANDLER) == Some(Str(HEADERS)) && Field(STRIP, REQUEST) == Some(edits);
    assert Field(edits, DELETE) == Some(Words(STRIPPED)) && Field(edits, SET) == None;
    assert TextsIn(Some(Words(STRIPPED))) == STRIPPED;
  }

  lemma DialRead(dial: string, handler: Json)
    requires Field(handler, UPSTREAMS) == Some(UpstreamTo(dial))
    ensures DialOf(handler) == dial
  {
  }

  /** A plain reverse proxy, from its fields. */
  lemma ForwardingProxyRead(proxy: Json, dial: string, headers: Json)
    requires Field(proxy, HANDLER) == Some(Str(REVERSE_PROXY)) && DialOf(proxy) == dial
    requires Field(proxy, HEADERS) == Some(headers)
    requires Field(proxy, REWRITE) == None && Field(proxy, HANDLE_RESPONSE) == None
    ensures StepOf(proxy) == ProxyStep(dial, None, EditsIn(Field(headers, REQUEST)), None, Field(proxy, TRANSPORT))
  {
  }

  lemma ManagementFields(dial: string)
    ensures var proxy := ToManagement(dial);
      && Field(proxy, HANDLER) == Some(Str(REVERSE_PROXY)) && DialOf(proxy) == dial
      && Field(proxy, HEADERS) == Some(SetHeaders(map[HOST_HEADER := Single(REQUEST_HOST)]))
      && Field(proxy, REWRITE) == None && Field(proxy, HANDLE_RESPONSE) == None && Field(proxy, TRANSPORT) == None
  {
    DialRead(dial, ToManagement(dial));
  }

  lemma ManagementRead(dial: string)
    ensures StepOf(ToManagement(dial)) == ProxyStep(dial, None, Edits(map[HOST_HEADER := REQUEST_HOST], {}), None, None)
  {
    var values := map[HOST_HEADER := Single(REQUEST_HOST)];
    ManagementFields(dial);
    ForwardingProxyRead(ToManagement(dial), dial, SetHeaders(values));
    SetsRead(values);
    assert FirstTexts(values) == map[HOST_HEADER := REQUEST_HOST];
  }

  lemma OnSuccessRead()
    ensures OnReplyOf(ON_SUCCESS) == OnReply({2}, Edits(map[ASSERTION_HEADER := ASSERTION_REPLY], {}))
  {
  }

  function AssertionSets(s: Settings): map<Text, Text> {
    var sets := map[EDGE_HOST_HEADER := REQUEST_HOST, EDGE_SNI_HEADER := REQUEST_SNI, EDGE_REQUEST_ID_HEADER := REQUEST_UUID,
                    FORWARDED_METHOD := REQUEST_METHOD, FORWARDED_URI := REQUEST_URI];
    if s.edgeToken != "" then sets[EDGE_TOKEN_HEADER := Lit(s.edgeToken)] else sets
  }

  lemma AssertionHeadersRead(s: Settings)
    ensures FirstTexts(AssertionHeaders(s)) == AssertionSets(s)
  {
  }

  /** The assertion step, as Caddy reads it. */
  function AskStep(s: Settings): Step {
    ProxyStep(s.assertUpstream, Some(ASSERT_PATH), Edits(AssertionSets(s), {}),
              Some(OnReply({2}, Edits(map[ASSERTION_HEADER := ASSERTION_REPLY], {}))), None)
  }

  lemma AskEditsRead(s: Settings)
    ensures EditsIn(Field(SetHeaders(AssertionHeaders(s)), REQUEST)) == AskStep(s).edits
  {
    SetsRead(AssertionHeaders(s));
    AssertionHeadersRead(s);
  }

  lemma AskingProxyRead(step: Json, dial: string, rewrite: Json, headers: Json, entry: Json)
    requires Field(step, HANDLER) == Some(Str(REVERSE_PROXY)) && Field(step, UPSTREAMS) == Some(UpstreamTo(dial))
    requires Field(step, REWRITE) == Some(rewrite) && Field(rewrite, URI) == Some(Str(ASSERT_PATH))
    requires Field(step, HEADERS) == Some(headers) && Field(step, HANDLE_RESPONSE) == Some(Arr([entry]))
    ensures StepOf(step) == ProxyStep(
      dial, Some(ASSERT_PATH), EditsIn(Field(headers, REQUEST)), Some(OnReplyOf(entry)), Field(step, TRANSPORT))
  {
  }

  lemma AssertStepFields(s: Settings)
    ensures var step := AssertStep(s);
      && Field(step, HANDLER) == Some(Str(REVERSE_PROXY)) && Field(step, UPSTREAMS) == Some(UpstreamTo(s.assertUpstream))
      && Field(step, REWRITE) == Some(Obj(map[METHOD_KEY := Str(GET), URI := Str(ASSERT_PATH)]))
      && Field(step, HEADERS) == Some(SetHeaders(AssertionHeaders(s)))
      && Field(step, HANDLE_RESPONSE) == Some(Arr([ON_SUCCESS])) && Field(step, TRANSPORT) == None
  {
  }

  lemma AssertStepRead(s: Settings)
    ensures StepOf(AssertStep(s)) == AskStep(s)
  {
    AssertStepFields(s);
    AskEditsRead(s);
    OnSuccessRead();
    var rewrite := Obj(map[METHOD_KEY := Str(GET), URI := Str(ASSERT_PATH)]);
    AskingProxyRead(AssertStep(s), s.assertUpstream, rewrite, SetHeaders(AssertionHeaders(s)), ON_SUCCESS);
  }

  function ProxySets(host: Text): map<Text, Text> {
    map[HOST_HEADER := host, FORWARDED_HOST := REQUEST_HOST, FORWARDED_PROTO := REQUEST_SCHEME]
  }

  lemma ProxyHeadersRead(host: Text)
    ensures EditsIn(Field(ProxyHeaders(host), REQUEST)) == Edits(ProxySets(host), {})
  {
  }

  /** A step that forwards to the address with the given host header. */
  ghost predicate ReadsAs(step: Step, dial: string, host: Text, tls: Option<Json>) {
    step == ProxyStep(dial, None, Edits(ProxySets(host), {}), None, tls)
  }

  lemma AcceptedProxyFields(proxy: Json, facts: Facts)
    requires AcceptsProxy(proxy, facts)
    ensures Field(proxy, HANDLER) == Some(Str(REVERSE_PROXY))
    ensures DialOf(proxy) == ProxyDial(proxy).value
    ensures Field(proxy, REWRITE) == None && Field(proxy, HANDLE_RESPONSE) == None
    ensures exists host :: Field(proxy, HEADERS) == Some(ProxyHeaders(host))
  {
    var own := OwnName(facts.upstreams[ProxyDial(proxy).value], PortOf(ProxyDial(proxy).value).value,
                       Field(proxy, TRANSPORT).Some?);
    assert Field(proxy, HEADERS) in {Some(ProxyHeaders(REQUEST_HOST)), Some(ProxyHeaders(Lit(own)))};
  }

  lemma ProxyRead(proxy: Json, facts: Facts)
    requires AcceptsProxy(proxy, facts)
    ensures exists host :: ReadsAs(StepOf(proxy), ProxyDial(proxy).value, host, Field(proxy, TRANSPORT))
  {
    AcceptedProxyFields(proxy, facts);
    var host :| Field(proxy, HEADERS) == Some(ProxyHeaders(host));
    ForwardingProxyRead(proxy, ProxyDial(proxy).value, ProxyHeaders(host));
    ProxyHeadersRead(host);
    assert ReadsAs(StepOf(proxy), ProxyDial(proxy).value, host, Field(proxy, TRANSPORT));
  }

  // --- running them ------------------------------------------------------------------------------------

  /** Edits that drop nothing: what they set, and everything else as it was. */
  lemma EditedAt(sets: map<Text, Text>, headers: map<Text, Value>, from: Request, reply: map<Text, Value>, name: Text)
    ensures var edited := Edited(Edits(sets, {}), headers, from, reply);
      && (name in edited <==> name in sets || name in headers)
      && (name in sets ==> edited[name] == Resolve(sets[name], from, reply))
      && (name in headers && name !in sets ==> edited[name] == headers[name])
  {
  }

  lemma EditedOnce(name: Text, text: Text, headers: map<Text, Value>, from: Request, reply: map<Text, Value>)
    ensures Edited(Edits(map[name := text], {}), headers, from, reply) == headers[name := Resolve(text, from, reply)]
  {
  }

  /** What the management API is asked: the request's own host, SNI, id and path, whatever the client sent. */
  lemma AssertionAsked(s: Settings, trusted: bool, rq: Request)
    requires rq.uri.Lit?
    ensures var headers := Edited(Edits(AssertionSets(s), {}), rq.headers, rq, map[]);
      var asked := AssertRequestOf(trusted, rq.(uri := ASSERT_PATH, headers := headers));
      && asked.host == rq.host && asked.uri == rq.uri.s && asked.requestId == rq.id
      && (rq.sni.Some? ==> asked.sni == rq.sni.value)
  {
    EditedAt(AssertionSets(s), rq.headers, rq, map[], EDGE_HOST_HEADER);
    EditedAt(AssertionSets(s), rq.headers, rq, map[], FORWARDED_URI);
    EditedAt(AssertionSets(s), rq.headers, rq, map[], EDGE_SNI_HEADER);
    EditedAt(AssertionSets(s), rq.headers, rq, map[], EDGE_REQUEST_ID_HEADER);
  }

  /** The decision on what the edge asks is an assertion about the request, or a status that stops it. */
  lemma DecisionAsserts(db: Database, api: Api, asked: AssertRequest, rq: Request)
    requires rq.uri.Lit? && asked.host == rq.host && asked.uri == rq.uri.s && asked.requestId == rq.id
    ensures EdgeAssert(db, api, asked).Success? ==> Asserts(db, api, rq, EdgeAssert(db, api, asked).value)
    ensures EdgeAssert(db, api, asked).Failure? ==> EdgeAssert(db, api, asked).error in {403, 500, 503}
  {
  }

  ghost predicate Asked(db: Database, api: Api, rq: Request, o: Outcome) {
    || o.Answered?
    || (exists a :: Asserts(db, api, rq, a) && o == Next(rq.(headers := rq.headers[ASSERTION_HEADER := Token(a)])))
  }

  /** The assertion step, given the reply it got. */
  lemma ReplyDecides(s: Settings, upstream: Upstream, rq: Request, reply: Reply)
    requires reply == upstream(s.assertUpstream, rq.(uri := ASSERT_PATH, headers := Edited(AskStep(s).edits, rq.headers, rq, map[])))
    requires reply.status in {200, 403, 500, 503}
    ensures var o := RunProxy(AskStep(s), upstream, rq);
      if reply.status != 200 then o == Answered(reply.status)
      else o == Next(rq.(headers := rq.headers[ASSERTION_HEADER := Resolve(ASSERTION_REPLY, rq, reply.headers)]))
  {
    EditedOnce(ASSERTION_HEADER, ASSERTION_REPLY, rq.headers, rq, reply.headers);
  }

  lemma DecidedReply(s: Settings, upstream: Upstream, rq: Request, decision: Result<Assertion, int>)
    requires ReplyOf(decision)
      == upstream(s.assertUpstream, rq.(uri := ASSERT_PATH, headers := Edited(AskStep(s).edits, rq.headers, rq, map[])))
    requires decision.Failure? ==> decision.error in {403, 500, 503}
    ensures RunProxy(AskStep(s), upstream, rq) == (
      if decision.Failure? then Answered(decision.error)
      else Next(rq.(headers := rq.headers[ASSERTION_HEADER := Token(decision.value)])))
  {
    ReplyDecides(s, upstream, rq, ReplyOf(decision));
  }

  /** The assertion step either stops the request or adds the assertion made for it and changes nothing else. */
  lemma AskStepDecides(db: Database, api: Api, trusted: bool, s: Settings, rq: Request)
    requires rq.uri.Lit?
    ensures Asked(db, api, rq, RunProxy(AskStep(s), Answers(db, api, trusted), rq))
  {
    AssertionAsked(s, trusted, rq);
    var asked := AssertRequestOf(trusted, rq.(uri := ASSERT_PATH, headers := Edited(AskStep(s).edits, rq.headers, rq, map[])));
    DecisionAsserts(db, api, asked, rq);
    DecidedReply(s, Answers(db, api, trusted), rq, EdgeAssert(db, api, asked));
  }

  lemma SentHeaders(headers: map<Text, Value>, host: Text, from: Request, a: Assertion, rq: Request)
    requires from.host == rq.host && headers == (rq.headers - RESERVED)[ASSERTION_HEADER := Token(a)]
    ensures var sent := Edited(Edits(ProxySets(host), {}), headers, from, map[]);
      && ASSERTION_HEADER in sent && sent[ASSERTION_HEADER] == Token(a)
      && FORWARDED_HOST in sent && sent[FORWARDED_HOST] == Plain(Lit(rq.host))
      && (forall h | h in sent && h in RESERVED :: h == ASSERTION_HEADER)
  {
    EditedAt(ProxySets(host), headers, from, map[], ASSERTION_HEADER);
    EditedAt(ProxySets(host), headers, from, map[], FORWARDED_HOST);
    forall h | h in Edited(Edits(ProxySets(host), {}), headers, from, map[]) && h in RESERVED
      ensures h == ASSERTION_HEADER
    {
      EditedAt(ProxySets(host), headers, from, map[], h);
    }
  }

  lemma ProxiedToAnOrigin(db: Database, api: Api, facts: Facts, rq: Request, allowed: Request, a: Assertion, step: Step,
                          upstream: Upstream, dial: string, host: Text, tls: Option<Json>)
    requires Asserts(db, api, rq, a) && allowed == rq.(headers := (rq.headers - RESERVED)[ASSERTION_HEADER := Token(a)])
    requires ReadsAs(step, dial, host, tls) && dial in facts.upstreams
    requires tls.Some? ==> tls.value == TlsTo(facts.upstreams[dial])
    ensures var o := RunProxy(step, upstream, allowed);
      ToAnOrigin(db, api, facts, rq, o) && o.dial == dial
  {
    SentHeaders(allowed.headers, host, allowed, a, rq);
  }

  lemma StripStrips(m: Matching, upstream: Upstream, rq: Request)
    ensures RunStep(m, upstream, StepOf(STRIP), rq) == Next(rq.(headers := rq.headers - RESERVED))
  {
    StripRead();
    assert rq.headers + Resolved(map[], rq, map[]) == rq.headers;
  }

  lemma StripFirst(m: Matching, upstream: Upstream, handlers: seq<Json>, rq: Request)
    requires handlers != [] && handlers[0] == STRIP
    ensures RunHandlers(m, upstream, handlers, rq) == RunHandlers(m, upstream, handlers[1..], rq.(headers := rq.headers - RESERVED))
  {
    StripStrips(m, upstream, rq);
    FirstHandler(m, upstream, handlers, rq);
  }

  lemma OneProxy(m: Matching, upstream: Upstream, proxy: Json, rq: Request)
    requires StepOf(proxy).ProxyStep? && StepOf(proxy).onReply.None?
    ensures RunHandlers(m, upstream, [proxy], rq) == RunProxy(StepOf(proxy), upstream, rq)
  {
    FirstHandler(m, upstream, [proxy], rq);
  }

  /** From the proxy on: the request carries the assertion, and goes to an offered origin. */
  lemma ProxySettles(m: Matching, db: Database, api: Api, trusted: bool, facts: Facts, proxy: Json, rq: Request, allowed: Request,
                     a: Assertion)
    requires AcceptsProxy(proxy, facts) && Asserts(db, api, rq, a)
    requires allowed == rq.(headers := (rq.headers - RESERVED)[ASSERTION_HEADER := Token(a)])
    ensures var o := RunHandlers(m, Answers(db, api, trusted), [proxy], allowed);
      ToAnOrigin(db, api, facts, rq, o) && ProxyDial(proxy) == Some(o.dial)
  {
    var upstream, step, dial, tls := Answers(db, api, trusted), StepOf(proxy), ProxyDial(proxy).value, Field(proxy, TRANSPORT);
    ProxyRead(proxy, facts);
    var host :| ReadsAs(step, dial, host, tls);
    OneProxy(m, upstream, proxy, allowed);
    ProxiedToAnOrigin(db, api, facts, rq, allowed, a, step, upstream, dial, host, tls);
  }

  lemma AskSettles(m: Matching, db: Database, api: Api, trusted: bool, s: Settings, facts: Facts, proxy: Json, rq: Request,
                   stripped: Request)
    requires AcceptsProxy(proxy, facts) && rq.uri.Lit? && stripped == rq.(headers := rq.headers - RESERVED)
    ensures var o := RunHandlers(m, Answers(db, api, trusted), [AssertStep(s), proxy], stripped);
      SettledBy(db, api, facts, rq, proxy, o)
  {
    var upstream := Answers(db, api, trusted);
    AssertStepRead(s);
    AskStepDecides(db, api, trusted, s, stripped);
    FirstHandler(m, upstream, [AssertStep(s), proxy], stripped);
    assert [AssertStep(s), proxy][1..] == [proxy];
    var asked := RunProxy(AskStep(s), upstream, stripped);
    if asked.Next? {
      var a :| Asserts(db, api, stripped, a) && asked == Next(stripped.(headers := stripped.headers[ASSERTION_HEADER := Token(a)]));
      ProxySettles(m, db, api, trusted, facts, proxy, rq, asked.rq, a);
    }
  }

  lemma StepsAre(steps: seq<Json>, s: Settings, facts: Facts)
    requires AcceptsSteps(steps, s, facts)
    ensures steps != [] && steps[0] == STRIP && steps[1..] == [AssertStep(s), steps[2]] && AcceptsProxy(steps[2], facts)
  {
  }

  /** An accepted route strips, asks, and only then proxies to an offered origin. */
  lemma AppStepsSettle(m: Matching, db: Database, api: Api, trusted: bool, s: Settings, facts: Facts, steps: seq<Json>,
                       rq: Request)
    requires AcceptsSteps(steps, s, facts) && rq.uri.Lit?
    ensures var o := RunHandlers(m, Answers(db, api, trusted), steps, rq);
      SettledBy(db, api, facts, rq, steps[2], o)
  {
    StepsAre(steps, s, facts);
    StripFirst(m, Answers(db, api, trusted), steps, rq);
    AskSettles(m, db, api, trusted, s, facts, steps[2], rq, rq.(headers := rq.headers - RESERVED));
  }

  lemma LimitRead(routeId: string, handler: Json)
    requires AcceptsRateLimit(routeId, handler)
    ensures StepOf(handler) == LimitStep(handler)
  {
  }

  /** A rate limit answers or changes nothing. */
  lemma LimitPasses(m: Matching, upstream: Upstream, routeId: string, handlers: seq<Json>, rq: Request)
    requires handlers != [] && AcceptsRateLimit(routeId, handlers[0])
    ensures RunHandlers(m, upstream, handlers, rq) ==
      if m.overLimit(handlers[0]) then Answered(429) else RunHandlers(m, upstream, handlers[1..], rq)
  {
    LimitRead(routeId, handlers[0]);
    FirstHandler(m, upstream, handlers, rq);
  }

  ghost predicate SettledBy(db: Database, api: Api, facts: Facts, rq: Request, proxy: Json, o: Outcome) {
    o.Answered? || (ToAnOrigin(db, api, facts, rq, o) && ProxyDial(proxy) == Some(o.dial))
  }

  lemma HandlersSettle(m: Matching, db: Database, api: Api, trusted: bool, s: Settings, facts: Facts, routeId: string,
                       handlers: seq<Json>, rq: Request)
    requires AcceptsHandle(routeId, Arr(handlers), s, facts) && rq.uri.Lit?
    ensures handlers != []
    ensures SettledBy(db, api, facts, rq, handlers[|handlers| - 1], RunHandlers(m, Answers(db, api, trusted), handlers, rq))
  {
    if |handlers| == 4 {
      LimitPasses(m, Answers(db, api, trusted), routeId, handlers, rq);
      AppStepsSettle(m, db, api, trusted, s, facts, handlers[1..], rq);
    } else {
      AppStepsSettle(m, db, api, trusted, s, facts, handlers, rq);
    }
  }

  lemma AppRouteSettles(m: Matching, db: Database, api: Api, trusted: bool, s: Settings, facts: Facts, route: Json, rq: Request)
    requires AcceptsAppRoute(route, s, facts) && rq.uri.Lit?
    ensures var handlers := Items(Field(route, HANDLE));
      && handlers != []
      && SettledBy(db, api, facts, rq, handlers[|handlers| - 1], RunHandlers(m, Answers(db, api, trusted), handlers, rq))
  {
    HandlersSettle(m, db, api, trusted, s, facts, route.fields[ID].text.s, route.fields[HANDLE].items, rq);
  }

  // --- the fixed routes --------------------------------------------------------------------------------

  lemma ManagementForwards(m: Matching, upstream: Upstream, dial: string, rq: Request)
    ensures var o := RunHandlers(m, upstream, [ToManagement(dial)], rq);
      o.Forwarded? && o.dial == dial && o.sent.headers.Keys == rq.headers.Keys + {HOST_HEADER}
  {
    ManagementRead(dial);
    EditedOnce(HOST_HEADER, REQUEST_HOST, rq.headers, rq, map[]);
  }

  lemma StringsIn(texts: seq<string>, t: Text)
    requires t in TextsIn(Some(Strings(texts)))
    ensures t.Lit? && t.s in texts
  {
  }

  /** A matching pair or API route was matched by one of its hosts, one of its paths and, if it has any, one of its ranges. */
  lemma FixedMatch(m: Matching, route: Json, hosts: seq<string>, paths: seq<Text>, ranges: seq<string>, rq: Request)
    requires ranges == [] ==>
      Field(route, MATCH) == Some(Arr([Obj(map[HOST := Strings(hosts), PATH := Words(paths)])]))
    requires ranges != [] ==>
      Field(route, MATCH) == Some(Arr([Obj(map[HOST := Strings(hosts), PATH := Words(paths),
                                               REMOTE_IP := Obj(map[RANGES := Strings(ranges)])])]))
    requires Matches(m, route, rq)
    ensures OnPath(m, paths, rq) && exists h | h in hosts :: m.hosts(h, rq.host)
    ensures ranges != [] ==> FromRange(m, ranges, rq)
  {
    var only := Field(route, MATCH).value.items[0];
    assert Items(Field(route, MATCH)) == [only];
    assert SetMatches(m, only, rq);
    assert Field(only, HOST) == Some(Strings(hosts)) && Field(only, PATH) == Some(Words(paths));
    var t :| t in TextsIn(Some(Strings(hosts))) && t.Lit? && m.hosts(t.s, rq.host);
    StringsIn(hosts, t);
    assert TextsIn(Some(Words(paths))) == paths;
    if ranges != [] {
      assert Field(only, REMOTE_IP) == Some(Obj(map[RANGES := Strings(ranges)]));
      assert Field(Obj(map[RANGES := Strings(ranges)]), RANGES) == Some(Strings(ranges));
      var r :| r in TextsIn(Some(Strings(ranges))) && r.Lit? && m.peers(r.s, rq.peer);
      StringsIn(ranges, r);
    }
  }

  lemma AllowedPairSettles(m: Matching, upstream: Upstream, route: Json, paths: seq<Text>, hosts: seq<string>,
                           ranges: seq<string>, dial: string, rq: Request)
    requires ranges != [] && Matches(m, route, rq) && Field(route, HANDLE) == Some(Arr([ToManagement(dial)]))
    requires Field(route, MATCH) == Some(Arr([Obj(map[HOST := Strings(hosts), PATH := Words(paths),
                                                      REMOTE_IP := Obj(map[RANGES := Strings(ranges)])])]))
    ensures var o := RunHandlers(m, upstream, Items(Field(route, HANDLE)), rq);
      && o.Forwarded? && o.dial == dial && OnPath(m, paths, rq) && FromRange(m, ranges, rq)
      && exists h | h in hosts :: m.hosts(h, rq.host)
  {
    ManagementForwards(m, upstream, dial, rq);
    FixedMatch(m, route, hosts, paths, ranges, rq);
  }

  /** Of a pair, one route proxies what comes from the ranges, and the other answers. */
  lemma PairFields(route: Json, name: Text, denied: Text, paths: seq<Text>, hosts: seq<string>, ranges: seq<string>, dial: string)
    requires route in AllowlistedRoutes(name, denied, paths, hosts, ranges, dial)
    ensures ranges != []
    ensures || Field(route, HANDLE) == Some(Arr([Answer(403)]))
            || (&& Field(route, HANDLE) == Some(Arr([ToManagement(dial)]))
                && Field(route, MATCH) == Some(Arr([Obj(map[HOST := Strings(hosts), PATH := Words(paths),
                                                            REMOTE_IP := Obj(map[RANGES := Strings(ranges)])])])))
  {
  }

  lemma AnswerSettles(m: Matching, upstream: Upstream, status: int, rq: Request)
    ensures RunHandlers(m, upstream, [Answer(status)], rq) == Answered(status)
  {
    AnswerRead(status);
    FirstHandler(m, upstream, [Answer(status)], rq);
  }

  lemma PairSettles(m: Matching, upstream: Upstream, route: Json, name: Text, denied: Text, paths: seq<Text>,
                    hosts: seq<string>, ranges: seq<string>, dial: string, rq: Request)
    requires route in AllowlistedRoutes(name, denied, paths, hosts, ranges, dial) && Matches(m, route, rq)
    ensures var o := RunHandlers(m, upstream, Items(Field(route, HANDLE)), rq);
      || o.Answered?
      || (&& o.Forwarded? && o.dial == dial && OnPath(m, paths, rq) && FromRange(m, ranges, rq)
          && exists h | h in hosts :: m.hosts(h, rq.host))
  {
    PairFields(route, name, denied, paths, hosts, ranges, dial);
    if Field(route, HANDLE) == Some(Arr([Answer(403)])) {
      AnswerSettles(m, upstream, 403, rq);
    } else {
      AllowedPairSettles(m, upstream, route, paths, hosts, ranges, dial, rq);
    }
  }

  lemma ApiFields(route: Json, hosts: seq<string>, dial: string)
    requires route in ApiRoutes(hosts, dial)
    ensures Items(Field(route, HANDLE)) == [STRIP, ToManagement(dial)]
    ensures Field(route, MATCH) == Some(Arr([Obj(map[HOST := Strings(hosts), PATH := Words(API_PATHS)])]))
  {
  }

  lemma StrippedForwards(m: Matching, upstream: Upstream, dial: string, rq: Request)
    ensures var o := RunHandlers(m, upstream, [STRIP, ToManagement(dial)], rq);
      o.Forwarded? && o.dial == dial && o.sent.headers.Keys !! RESERVED
  {
    var handlers := [STRIP, ToManagement(dial)];
    StripFirst(m, upstream, handlers, rq);
    assert handlers[1..] == [ToManagement(dial)];
    ManagementForwards(m, upstream, dial, rq.(headers := rq.headers - RESERVED));
  }

  lemma ApiSettles(m: Matching, upstream: Upstream, route: Json, hosts: seq<string>, dial: string, rq: Request)
    requires route in ApiRoutes(hosts, dial) && Matches(m, route, rq)
    ensures var o := RunHandlers(m, upstream, Items(Field(route, HANDLE)), rq);
      && o.Forwarded? && o.dial == dial && OnPath(m, API_PATHS, rq)
      && o.sent.headers.Keys !! RESERVED && exists h | h in hosts :: m.hosts(h, rq.host)
  {
    ApiFields(route, hosts, dial);
    StrippedForwards(m, upstream, dial, rq);
    FixedMatch(m, route, hosts, API_PATHS, [], rq);
  }

  lemma HealthSettles(m: Matching, upstream: Upstream, rq: Request)
    ensures RunHandlers(m, upstream, Items(Field(HEALTH, HANDLE)), rq) == Answered(204)
  {
  }

  lemma UnmatchedSettles(m: Matching, upstream: Upstream, rq: Request)
    ensures RunHandlers(m, upstream, Items(Field(UNMATCHED, HANDLE)), rq) == Answered(404)
  {
  }

  // --- the whole configuration ---------------------------------------------------------------------------

  ghost predicate Named(hosts: seq<string>, facts: Facts) {
    forall h | h in hosts :: h in facts.edgeNames
  }

  ghost predicate FromPortal(route: Json, s: Settings, facts: Facts) {
    exists hosts :: Named(hosts, facts) && route in PortalRoutes(hosts, facts.portalRanges, s.assertUpstream)
  }

  ghost predicate FromOperator(route: Json, s: Settings, facts: Facts) {
    exists hosts :: Named(hosts, facts) && route in OperatorRoutes(hosts, facts.operatorRanges, s.assertUpstream)
  }

  ghost predicate FromApi(route: Json, s: Settings, facts: Facts) {
    facts.publicApi && exists hosts :: Named(hosts, facts) && route in ApiRoutes(hosts, s.assertUpstream)
  }

  lemma SortedNames(route: Json, facts: Facts)
    requires OnEdgeNames(RouteHosts(route), facts)
    ensures Named(Sorted(RouteHosts(route).value), facts)
  {
    AtMostIsTotalOrder();
    var hosts := RouteHosts(route).value;
    forall h | h in Sorted(hosts)
      ensures h in facts.edgeNames
    {
      SortByHasSame(AtMost, hosts, h);
    }
  }

  lemma Taken(middle: seq<Json>, expected: seq<Json>, i: nat)
    requires Expect(middle, expected).Some? && i < |middle|
    ensures middle[i] in expected || middle[i] in Expect(middle, expected).value
  {
  }

  /** Every middle route of an accepted configuration is one of the fixed ones or an accepted application route. */
  lemma MiddleIs(middle: seq<Json>, i: nat, s: Settings, facts: Facts, canon: Canon)
    requires AcceptsMiddle(middle, s, facts, canon) && i < |middle|
    ensures FixedRoute(middle[i], s, facts) || AcceptsAppRoute(middle[i], s, facts)
  {
    var route := middle[i];
    var one := TakePortal(middle, s, facts).value;
    if one != middle {
      SortedNames(middle[0], facts);
      Taken(middle, PortalRoutes(Sorted(RouteHosts(middle[0]).value), facts.portalRanges, s.assertUpstream), i);
    }
    if route in one && !FromPortal(route, s, facts) {
      AfterPortal(one, route, s, facts, canon);
    }
  }

  lemma AfterPortal(one: seq<Json>, route: Json, s: Settings, facts: Facts, canon: Canon)
    requires route in one && TakeOperator(one, s, facts).Some?
    requires TakeApi(TakeOperator(one, s, facts).value, s, facts).Some?
    requires AcceptsAppRoutes(TakeApi(TakeOperator(one, s, facts).value, s, facts).value, s, facts, canon)
    ensures FromOperator(route, s, facts) || FromApi(route, s, facts) || AcceptsAppRoute(route, s, facts)
  {
    var two := TakeOperator(one, s, facts).value;
    var i :| 0 <= i < |one| && one[i] == route;
    if two != one {
      SortedNames(one[0], facts);
      Taken(one, OperatorRoutes(Sorted(RouteHosts(one[0]).value), facts.operatorRanges, s.assertUpstream), i);
    }
    if route in two && !FromOperator(route, s, facts) {
      var j :| 0 <= j < |two| && two[j] == route;
      var three := TakeApi(two, s, facts).value;
      if three != two {
        SortedNames(two[0], facts);
        Taken(two, ApiRoutes(Sorted(RouteHosts(two[0]).value), s.assertUpstream), j);
      }
    }
  }

  ghost predicate FixedRoute(route: Json, s: Settings, facts: Facts) {
    route == HEALTH || route == UNMATCHED || FromPortal(route, s, facts) || FromOperator(route, s, facts) || FromApi(route, s, facts)
  }

  lemma FixedRouteSettles(m: Matching, upstream: Upstream, s: Settings, facts: Facts, route: Json, rq: Request)
    requires FixedRoute(route, s, facts) && Matches(m, route, rq)
    ensures var o := RunHandlers(m, upstream, Items(Field(route, HANDLE)), rq);
      o.Answered? || ToTheManagementApi(m, s, facts, rq, o)
  {
    if route == HEALTH {
      HealthSettles(m, upstream, rq);
    } else if route == UNMATCHED {
      UnmatchedSettles(m, upstream, rq);
    } else if FromPortal(route, s, facts) {
      var hosts :| Named(hosts, facts) && route in PortalRoutes(hosts, facts.portalRanges, s.assertUpstream);
      PairSettles(m, upstream, route, PORTAL_ROUTE, PORTAL_DENIED, PORTAL_PATHS, hosts, facts.portalRanges, s.assertUpstream, rq);
    } else if FromOperator(route, s, facts) {
      var hosts :| Named(hosts, facts) && route in OperatorRoutes(hosts, facts.operatorRanges, s.assertUpstream);
      PairSettles(m, upstream, route, OPERATOR_ROUTE, OPERATOR_DENIED, OPERATOR_PATHS, hosts, facts.operatorRanges,
                  s.assertUpstream, rq);
    } else {
      var hosts :| Named(hosts, facts) && route in ApiRoutes(hosts, s.assertUpstream);
      ApiSettles(m, upstream, route, hosts, s.assertUpstream, rq);
    }
  }

  lemma RouteIsSafe(m: Matching, db: Database, api: Api, trusted: bool, s: Settings, facts: Facts, route: Json, rq: Request)
    requires rq.uri.Lit? && Matches(m, route, rq) && (FixedRoute(route, s, facts) || AcceptsAppRoute(route, s, facts))
    ensures var o := RunHandlers(m, Answers(db, api, trusted), Items(Field(route, HANDLE)), rq);
      !o.Next? && Safe(m, db, api, s, facts, rq, o)
  {
    if FixedRoute(route, s, facts) {
      FixedRouteSettles(m, Answers(db, api, trusted), s, facts, route, rq);
    } else {
      AppRouteSettles(m, db, api, trusted, s, facts, route, rq);
    }
  }

  ghost predicate Framed(routes: seq<Json>, s: Settings, facts: Facts, canon: Canon) {
    && |routes| >= 2 && routes[0] == HEALTH && routes[|routes| - 1] == UNMATCHED
    && AcceptsMiddle(routes[1..|routes| - 1], s, facts, canon)
  }

  lemma FramedRoute(routes: seq<Json>, i: nat, s: Settings, facts: Facts, canon: Canon)
    requires Framed(routes, s, facts, canon) && i < |routes|
    ensures FixedRoute(routes[i], s, facts) || AcceptsAppRoute(routes[i], s, facts)
  {
    if 0 < i < |routes| - 1 {
      assert routes[1..|routes| - 1][i - 1] == routes[i];
      MiddleIs(routes[1..|routes| - 1], i - 1, s, facts, canon);
    }
  }

  lemma ServerRoutes(server: Json, s: Settings, facts: Facts, canon: Canon)
    requires AcceptsServer(server, s, facts, canon)
    ensures server.Obj? && Framed(RoutesIn(server), s, facts, canon)
  {
  }

  lemma AcceptedRoutes(apps: Json, s: Settings, facts: Facts, canon: Canon)
    requires Accepts(apps, s, facts, canon)
    ensures Framed(RoutesOf(apps), s, facts, canon)
  {
    var http := apps.fields[HTTP];
    var server := http.fields[SERVERS].fields[EDGE];
    ServerRoutes(server, s, facts, canon);
    assert RoutesOf(apps) == RoutesIn(server);
  }

  /**
   * For any configuration the gateway accepted, however old, against the database as it is now: a
   * request is answered at the edge, or reaches the management API where it is meant to be reached,
   * or goes to an offered origin with the reserved headers stripped and an assertion that was just
   * made about the live row of its host, which is serveable or is being probed.
   */
  lemma OnlyAssertedRequestsReachOrigins(m: Matching, db: Database, api: Api, trusted: bool, apps: Json, s: Settings,
                                         facts: Facts, canon: Canon, rq: Request)
    requires Accepts(apps, s, facts, canon) && rq.uri.Lit?
    ensures Safe(m, db, api, s, facts, rq, Serve(m, db, api, trusted, apps, rq))
  {
    AcceptedRoutes(apps, s, facts, canon);
    var routes := RoutesOf(apps);
    var ok := (o: Outcome) => Safe(m, db, api, s, facts, rq, o);
    forall i | 0 <= i < |routes|
      ensures Settles(m, Answers(db, api, trusted), routes[i], rq, ok)
    {
      if Matches(m, routes[i], rq) {
        FramedRoute(routes, i, s, facts, canon);
        RouteIsSafe(m, db, api, trusted, s, facts, routes[i], rq);
      }
    }
    RoutesSettle(m, Answers(db, api, trusted), routes, rq, ok);
  }

  /** A host without a live row, so also a deleted domain's, never reaches an origin on its next request. */
  lemma DeletedIsNotServed(m: Matching, db: Database, api: Api, trusted: bool, apps: Json, s: Settings,
                           facts: Facts, canon: Canon, rq: Request)
    requires Accepts(apps, s, facts, canon) && rq.uri.Lit?
    requires var hostname := api.canon(HostName(rq.host));
      hostname.Some? && api.canon(hostname.value) == hostname &&
      forall row | row in db.domains && row.hostname == hostname.value :: row.deletedAt.Some?
    ensures var o := Serve(m, db, api, trusted, apps, rq);
      o.Answered? || ToTheManagementApi(m, s, facts, rq, o)
  {
    OnlyAssertedRequestsReachOrigins(m, db, api, trusted, apps, s, facts, canon, rq);
  }

  // --- and requests that are let through -----------------------------------------------------------------

  /** The management API would allow the request as the edge asks about it. */
  predicate Allowed(db: Database, api: Api, trusted: bool, rq: Request) {
    rq.uri.Lit? &&
    EdgeAssert(db, api, AssertRequest(
      trusted, api.settings.edgeToken, rq.host,
      if rq.sni.Some? then rq.sni.value else "{http.request.tls.server_name}", rq.id, rq.uri.s)).Success?
  }

  lemma AskedInFull(s: Settings, trusted: bool, rq: Request)
    requires rq.uri.Lit? && EDGE_TOKEN_HEADER !in rq.headers
    ensures var headers := Edited(Edits(AssertionSets(s), {}), rq.headers, rq, map[]);
      AssertRequestOf(trusted, rq.(uri := ASSERT_PATH, headers := headers))
        == AssertRequest(trusted, s.edgeToken, rq.host,
                         if rq.sni.Some? then rq.sni.value else "{http.request.tls.server_name}", rq.id, rq.uri.s)
  {
    EditedAt(AssertionSets(s), rq.headers, rq, map[], EDGE_HOST_HEADER);
    EditedAt(AssertionSets(s), rq.headers, rq, map[], FORWARDED_URI);
    EditedAt(AssertionSets(s), rq.headers, rq, map[], EDGE_SNI_HEADER);
    EditedAt(AssertionSets(s), rq.headers, rq, map[], EDGE_REQUEST_ID_HEADER);
    EditedAt(AssertionSets(s), rq.headers, rq, map[], EDGE_TOKEN_HEADER);
  }

  lemma SuccessGoesOn(s: Settings, upstream: Upstream, rq: Request)
    requires var headers := Edited(AskStep(s).edits, rq.headers, rq, map[]);
      upstream(s.assertUpstream, rq.(uri := ASSERT_PATH, headers := headers)).status == 200
    ensures RunProxy(AskStep(s), upstream, rq).Next?
  {
  }

  lemma AskStepAllows(db: Database, api: Api, trusted: bool, rq: Request)
    requires EDGE_TOKEN_HEADER !in rq.headers && Allowed(db, api, trusted, rq)
    ensures RunProxy(AskStep(api.settings), Answers(db, api, trusted), rq).Next?
  {
    AskedInFull(api.settings, trusted, rq);
    SuccessGoesOn(api.settings, Answers(db, api, trusted), rq);
  }

  lemma AllowedGoesOn(m: Matching, db: Database, api: Api, trusted: bool, facts: Facts, proxy: Json, rq: Request)
    requires AcceptsProxy(proxy, facts) && EDGE_TOKEN_HEADER !in rq.headers && Allowed(db, api, trusted, rq)
    ensures RunHandlers(m, Answers(db, api, trusted), [AssertStep(api.settings), proxy], rq).Forwarded?
  {
    var upstream := Answers(db, api, trusted);
    AssertStepRead(api.settings);
    AskStepAllows(db, api, trusted, rq);
    FirstHandler(m, upstream, [AssertStep(api.settings), proxy], rq);
    assert [AssertStep(api.settings), proxy][1..] == [proxy];
    ProxyRead(proxy, facts);
    FirstHandler(m, upstream, [proxy], RunProxy(AskStep(api.settings), upstream, rq).rq);
  }

  lemma StrippedIsAllowed(db: Database, api: Api, trusted: bool, rq: Request)
    requires Allowed(db, api, trusted, rq)
    ensures Allowed(db, api, trusted, rq.(headers := rq.headers - RESERVED))
    ensures EDGE_TOKEN_HEADER !in rq.headers - RESERVED
  {
  }

  lemma StepsForward(m: Matching, db: Database, api: Api, trusted: bool, facts: Facts, steps: seq<Json>, rq: Request)
    requires AcceptsSteps(steps, api.settings, facts) && Allowed(db, api, trusted, rq)
    ensures RunHandlers(m, Answers(db, api, trusted), steps, rq).Forwarded?
  {
    StepsAre(steps, api.settings, facts);
    StripFirst(m, Answers(db, api, trusted), steps, rq);
    StrippedIsAllowed(db, api, trusted, rq);
    AllowedGoesOn(m, db, api, trusted, facts, steps[2], rq.(headers := rq.headers - RESERVED));
  }

  lemma HandlersForward(m: Matching, db: Database, api: Api, trusted: bool, facts: Facts, routeId: string, handlers: seq<Json>,
                        rq: Request)
    requires AcceptsHandle(routeId, Arr(handlers), api.settings, facts) && Allowed(db, api, trusted, rq)
    requires forall limits :: !m.overLimit(limits)
    ensures RunHandlers(m, Answers(db, api, trusted), handlers, rq).Forwarded?
  {
    if |handlers| == 4 {
      LimitPasses(m, Answers(db, api, trusted), routeId, handlers, rq);
      StepsForward(m, db, api, trusted, facts, handlers[1..], rq);
    } else {
      StepsForward(m, db, api, trusted, facts, handlers, rq);
    }
  }

  /** An accepted route forwards every request the API allows and its rate limit lets pass. */
  lemma AppRouteForwards(m: Matching, db: Database, api: Api, trusted: bool, facts: Facts, route: Json, rq: Request)
    requires AcceptsAppRoute(route, api.settings, facts) && Allowed(db, api, trusted, rq)
    requires forall limits :: !m.overLimit(limits)
    ensures RunHandlers(m, Answers(db, api, trusted), Items(Field(route, HANDLE)), rq).Forwarded?
  {
    HandlersForward(m, db, api, trusted, facts, route.fields[ID].text.s, route.fields[HANDLE].items, rq);
  }

  lemma {:induction false} FirstMatch(m: Matching, upstream: Upstream, routes: seq<Json>, k: nat, rq: Request)
    requires k < |routes| && Matches(m, routes[k], rq) && forall i | 0 <= i < k :: !Matches(m, routes[i], rq)
    ensures var o := RunHandlers(m, upstream, Items(Field(routes[k], HANDLE)), rq);
      !o.Next? ==> RunRoutes(m, upstream, routes, rq) == o
  {
    if k > 0 {
      assert !Matches(m, routes[0], rq);
      FirstMatch(m, upstream, routes[1..], k - 1, rq);
    }
  }
}
