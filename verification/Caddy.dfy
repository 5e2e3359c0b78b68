/**
 * A small first-match interpreter for the part of Caddy's configuration language the edge uses.
 * How patterns match hosts, paths and addresses, and when a rate limit is exceeded, is left to Caddy.
 */
module Caddy {
  import opened Wrappers
  import opened Json
  import opened AssertionToken

  // A header value: text, or the signed assertion the management API answered with.
  datatype Value = Plain(text: Text) | Token(assertion: Assertion)

  datatype Request = Request(
    host: string, sni: Option<string>, id: string, uri: Text, peer: string, headers: map<Text, Value>)

  datatype Reply = Reply(status: int, headers: map<Text, Value>)

  datatype Matching = Matching(
    hosts: (string, string) -> bool,
    paths: (Text, Text) -> bool,
    peers: (string, string) -> bool,
    overLimit: Json -> bool)

  // What an upstream answers to a request that is sent to it while the edge still decides.
  type Upstream = (string, Request) -> Reply

  datatype Outcome =
    | Answered(status: int)
    | Forwarded(dial: string, sent: Request, tlsName: Option<Json>)
    | Next(rq: Request)

  // --- matching ------------------------------------------------------------------------------------

  function Items(value: Option<Json>): seq<Json> {
    if value.Some? && value.value.Arr? then value.value.items else []
  }

  function TextsIn(value: Option<Json>): seq<Text> {
    var items := Items(value);
    seq(|items|, i requires 0 <= i < |items| => if items[i].Str? then items[i].text else Lit(""))
  }

  /** One matcher set: every matcher it names must match. */
  predicate SetMatches(m: Matching, matchers: Json, rq: Request) {
    && (Field(matchers, HOST).Some? ==>
          exists t | t in TextsIn(Field(matchers, HOST)) :: t.Lit? && m.hosts(t.s, rq.host))
    && (Field(matchers, PATH).Some? ==>
          exists t | t in TextsIn(Field(matchers, PATH)) :: m.paths(t, rq.uri))
    && (Field(matchers, REMOTE_IP).Some? ==>
          exists t | t in TextsIn(Field(Field(matchers, REMOTE_IP).value, RANGES)) :: t.Lit? && m.peers(t.s, rq.peer))
  }

  /** A route without matcher sets matches everything. */
  predicate Matches(m: Matching, route: Json, rq: Request) {
    var sets := Items(Field(route, MATCH));
    sets == [] || exists x | x in sets :: SetMatches(m, x, rq)
  }

  // --- handlers, read from the configuration ---------------------------------------------------------

  // Header edits: values to set, by name, and names to drop.
  datatype Edits = Edits(sets: map<Text, Text>, drops: set<Text>)

  const NO_EDITS: Edits := Edits(map[], {})

  // What to do with an upstream's reply whose status is listed, or whose class is.
  datatype OnReply = OnReply(statuses: set<int>, edits: Edits)

  datatype Step =
    | EditStep(edits: Edits)
    | LimitStep(limits: Json)
    | AnswerStep(status: int)
    | ProxyStep(dial: string, uri: Option<Text>, edits: Edits, onReply: Option<OnReply>, tls: Option<Json>)
    | UnknownStep

  function FirstText(value: Json): Text {
    var texts := TextsIn(Some(value));
    if texts == [] then Lit("") else texts[0]
  }

  function FirstTexts(values: map<Text, Json>): map<Text, Text> {
    map name | name in values :: FirstText(values[name])
  }

  function EditsIn(value: Option<Json>): Edits {
    var sets := if value.Some? then Field(value.value, SET) else None;
    var drops := if value.Some? then TextsIn(Field(value.value, DELETE)) else [];
    Edits(if sets.Some? && sets.value.Obj? then FirstTexts(sets.value.fields) else map[], set name | name in drops)
  }

  function DialOf(handler: Json): string {
    var upstreams := Items(Field(handler, UPSTREAMS));
    var dial := if upstreams == [] then None else Field(upstreams[0], DIAL);
    if dial.Some? && dial.value.Str? && dial.value.text.Lit? then dial.value.text.s else ""
  }

  function RewriteOf(handler: Json): Option<Text> {
    var rewrite := Field(handler, REWRITE);
    var uri := if rewrite.Some? then Field(rewrite.value, URI) else None;
    if uri.Some? && uri.value.Str? then Some(uri.value.text) else None
  }

  function NumbersIn(value: Option<Json>): set<int> {
    set x | x in Items(value) && x.Num? :: x.number
  }

  /** A response handler: the statuses it is for, and the header edits of its first route's first handler. */
  function OnReplyOf(entry: Json): OnReply {
    var matchers := Field(entry, MATCH);
    var routes := Items(Field(entry, ROUTES));
    var handlers := if routes == [] then [] else Items(Field(routes[0], HANDLE));
    OnReply(if matchers.Some? then NumbersIn(Field(matchers.value, STATUS_CODE)) else {},
            if handlers == [] then NO_EDITS else EditsIn(Field(handlers[0], REQUEST)))
  }

  function ProxyOf(handler: Json): Step {
    var headers := Field(handler, HEADERS);
    var onReply := Items(Field(handler, HANDLE_RESPONSE));
    ProxyStep(
      DialOf(handler), RewriteOf(handler),
      if headers.Some? then EditsIn(Field(headers.value, REQUEST)) else NO_EDITS,
      if onReply == [] then None else Some(OnReplyOf(onReply[0])), Field(handler, TRANSPORT))
  }

  function StepOf(handler: Json): Step {
    var kind := Field(handler, HANDLER);
    if kind == Some(Str(HEADERS)) then EditStep(EditsIn(Field(handler, REQUEST)))
    else if kind == Some(Str(RATE_LIMIT)) then LimitStep(handler)
    else if kind == Some(Str(STATIC_RESPONSE)) then
      var status := Field(handler, STATUS_CODE);
      AnswerStep(if status.Some? && status.value.Num? then status.value.number else 200)
    else if kind == Some(Str(REVERSE_PROXY)) then ProxyOf(handler)
    else UnknownStep
  }

  // --- running them ----------------------------------------------------------------------------------

  /** Placeholders stand for parts of the request as it came in, or for the assertion header of a reply. */
  function Resolve(text: Text, from: Request, reply: map<Text, Value>): Value {
    if text == REQUEST_HOST then Plain(Lit(from.host))
    else if text == REQUEST_SNI && from.sni.Some? then Plain(Lit(from.sni.value))
    else if text == REQUEST_UUID then Plain(Lit(from.id))
    else if text == REQUEST_URI then Plain(from.uri)
    else if text == ASSERTION_REPLY then if ASSERTION_HEADER in reply then reply[ASSERTION_HEADER] else Plain(Lit(""))
    else Plain(text)
  }

  function Edited(edits: Edits, headers: map<Text, Value>, from: Request, reply: map<Text, Value>): map<Text, Value> {
    headers + Resolved(edits.sets, from, reply) - edits.drops
  }

  function Resolved(sets: map<Text, Text>, from: Request, reply: map<Text, Value>): map<Text, Value> {
    map name | name in sets :: Resolve(sets[name], from, reply)
  }

  predicate Handles(onReply: OnReply, status: int) {
    status in onReply.statuses || status / 100 in onReply.statuses
  }

  /** Headers and rewrites apply to the copy sent upstream; the request itself goes on unchanged. */
  function RunProxy(step: Step, upstream: Upstream, rq: Request): Outcome
    requires step.ProxyStep?
  {
    var uri := if step.uri.Some? then step.uri.value else rq.uri;
    var copy := rq.(uri := uri, headers := Edited(step.edits, rq.headers, rq, map[]));
    if step.onReply.None? then Forwarded(step.dial, copy, step.tls)
    else
      var reply := upstream(step.dial, copy);
      if !Handles(step.onReply.value, reply.status) then Answered(reply.status)
      else Next(rq.(headers := Edited(step.onReply.value.edits, rq.headers, rq, reply.headers)))
  }

  /** A handler of a kind Caddy does not know is a server error. */
  function RunStep(m: Matching, upstream: Upstream, step: Step, rq: Request): Outcome {
    match step
    case EditStep(edits) => Next(rq.(headers := Edited(edits, rq.headers, rq, map[])))
    case LimitStep(limits) => if m.overLimit(limits) then Answered(429) else Next(rq)
    case AnswerStep(status) => Answered(status)
    case ProxyStep(_, _, _, _, _) => RunProxy(step, upstream, rq)
    case UnknownStep => Answered(500)
  }

  function RunHandlers(m: Matching, upstream: Upstream, handlers: seq<Json>, rq: Request): Outcome
    decreases |handlers|
  {
    if handlers == [] then Next(rq)
    else
      var first := RunStep(m, upstream, StepOf(handlers[0]), rq);
      if first.Next? then RunHandlers(m, upstream, handlers[1..], first.rq) else first
  }

  /** Routes are tried in order; a request nothing answers gets an empty response. */
  function RunRoutes(m: Matching, upstream: Upstream, routes: seq<Json>, rq: Request): Outcome
    decreases |routes|
  {
    if routes == [] then Answered(200)
    else if !Matches(m, routes[0], rq) then RunRoutes(m, upstream, routes[1..], rq)
    else
      var outcome := RunHandlers(m, upstream, Items(Field(routes[0], HANDLE)), rq);
      if !outcome.Next? then outcome
      else if Field(routes[0], TERMINAL) == Some(Bool(true)) then Answered(200)
      else RunRoutes(m, upstream, routes[1..], outcome.rq)
  }
}
