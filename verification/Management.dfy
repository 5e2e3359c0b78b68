/** Who reaches the management API through the edge (`app/edge/config.py`), and who is turned away. */
module Management {
  import opened Wrappers
  import opened Texts
  import opened Json
  import opened EdgeConfig
  import opened InternalApi
  import opened Caddy
  import opened Serving
  import opened OwnOrigin
  import opened Compiled

  ghost predicate OnHost(m: Matching, hosts: seq<string>, rq: Request) {
    exists h | h in hosts :: m.hosts(h, rq.host)
  }

  // --- when a fixed route matches -------------------------------------------------------------------------

  lemma HostMatches(m: Matching, hosts: seq<string>, rq: Request)
    requires OnHost(m, hosts, rq)
    ensures exists t | t in TextsIn(Some(Strings(hosts))) :: t.Lit? && m.hosts(t.s, rq.host)
  {
    var h :| h in hosts && m.hosts(h, rq.host);
    var i :| 0 <= i < |hosts| && hosts[i] == h;
    assert TextsIn(Some(Strings(hosts)))[i] == Lit(h);
  }

  lemma RangeMatches(m: Matching, ranges: seq<string>, rq: Request)
    requires FromRange(m, ranges, rq)
    ensures exists t | t in TextsIn(Some(Strings(ranges))) :: t.Lit? && m.peers(t.s, rq.peer)
  {
    var r :| r in ranges && m.peers(r, rq.peer);
    var i :| 0 <= i < |ranges| && ranges[i] == r;
    assert TextsIn(Some(Strings(ranges)))[i] == Lit(r);
  }

  function OnPaths(hosts: seq<string>, paths: seq<Text>): Json {
    Obj(map[HOST := Strings(hosts), PATH := Words(paths)])
  }

  function OnPathsFrom(hosts: seq<string>, paths: seq<Text>, ranges: seq<string>): Json {
    Obj(map[HOST := Strings(hosts), PATH := Words(paths), REMOTE_IP := Obj(map[RANGES := Strings(ranges)])])
  }

  lemma PathsMatch(m: Matching, route: Json, hosts: seq<string>, paths: seq<Text>, rq: Request)
    requires Field(route, MATCH) == Some(Arr([OnPaths(hosts, paths)]))
    ensures Matches(m, route, rq) <==> OnHost(m, hosts, rq) && OnPath(m, paths, rq)
  {
    var only := OnPaths(hosts, paths);
    assert Items(Field(route, MATCH)) == [only];
    assert Field(only, HOST) == Some(Strings(hosts)) && Field(only, PATH) == Some(Words(paths));
    assert Field(only, REMOTE_IP) == None;
    assert TextsIn(Some(Words(paths))) == paths;
    if OnHost(m, hosts, rq) && OnPath(m, paths, rq) {
      HostMatches(m, hosts, rq);
      assert SetMatches(m, only, rq);
      assert only in [only];
    }
    if Matches(m, route, rq) {
      FixedMatch(m, route, hosts, paths, [], rq);
    }
  }

  lemma AllowedMatch(m: Matching, route: Json, hosts: seq<string>, paths: seq<Text>, ranges: seq<string>, rq: Request)
    requires ranges != [] && Field(route, MATCH) == Some(Arr([OnPathsFrom(hosts, paths, ranges)]))
    ensures Matches(m, route, rq) <==> OnHost(m, hosts, rq) && OnPath(m, paths, rq) && FromRange(m, ranges, rq)
  {
    var only := OnPathsFrom(hosts, paths, ranges);
    assert Items(Field(route, MATCH)) == [only];
    assert Field(only, HOST) == Some(Strings(hosts)) && Field(only, PATH) == Some(Words(paths));
    assert Field(only, REMOTE_IP) == Some(Obj(map[RANGES := Strings(ranges)]));
    assert Field(Obj(map[RANGES := Strings(ranges)]), RANGES) == Some(Strings(ranges));
    assert TextsIn(Some(Words(paths))) == paths;
    if OnHost(m, hosts, rq) && OnPath(m, paths, rq) && FromRange(m, ranges, rq) {
      HostMatches(m, hosts, rq);
      RangeMatches(m, ranges, rq);
      assert SetMatches(m, only, rq);
      assert only in [only];
    }
    if Matches(m, route, rq) {
      FixedMatch(m, route, hosts, paths, ranges, rq);
    }
  }

  // --- what they do -----------------------------------------------------------------------------------------

  /** The request is sent to the management API, as the host it asked for. */
  ghost predicate Reaches(s: Settings, rq: Request, o: Outcome) {
    && o.Forwarded? && o.dial == s.assertUpstream && o.tlsName.None?
    && HOST_HEADER in o.sent.headers && o.sent.headers[HOST_HEADER] == Plain(Lit(rq.host)) && o.sent.uri == rq.uri
  }

  lemma ProxiedAs(m: Matching, upstream: Upstream, s: Settings, rq: Request)
    ensures Reaches(s, rq, RunHandlers(m, upstream, [ToManagement(s.assertUpstream)], rq))
  {
    ManagementRead(s.assertUpstream);
    EditedOnce(HOST_HEADER, REQUEST_HOST, rq.headers, rq, map[]);
  }

  lemma FirstDecides(m: Matching, upstream: Upstream, route: Json, rest: seq<Json>, rq: Request)
    ensures !Matches(m, route, rq) ==> RunRoutes(m, upstream, [route] + rest, rq) == RunRoutes(m, upstream, rest, rq)
    ensures var o := RunHandlers(m, upstream, Items(Field(route, HANDLE)), rq);
      Matches(m, route, rq) && !o.Next? ==> RunRoutes(m, upstream, [route] + rest, rq) == o
  {
    assert ([route] + rest)[1..] == rest;
  }

  lemma PairIs(name: Text, denied: Text, paths: seq<Text>, hosts: seq<string>, ranges: seq<string>, upstream: string)
    requires ranges != [] && hosts != []
    ensures var pair := AllowlistedRoutes(name, denied, paths, hosts, ranges, upstream);
      && |pair| == 2
      && Field(pair[0], MATCH) == Some(Arr([OnPathsFrom(hosts, paths, ranges)]))
      && Field(pair[0], HANDLE) == Some(Arr([ToManagement(upstream)]))
      && Field(pair[1], MATCH) == Some(Arr([OnPaths(hosts, paths)])) && Field(pair[1], HANDLE) == Some(Arr([Answer(403)]))
  {
  }

  /** A pair of routes takes every request on its paths: from its ranges to the management API, else it is refused. */
  ghost predicate PairTakes(m: Matching, hosts: seq<string>, paths: seq<Text>, ranges: seq<string>, rq: Request) {
    ranges != [] && OnHost(m, hosts, rq) && OnPath(m, paths, rq)
  }

  lemma PairDecides(m: Matching, upstream: Upstream, s: Settings, name: Text, denied: Text, paths: seq<Text>, hosts: seq<string>,
                    ranges: seq<string>, rest: seq<Json>, rq: Request)
    ensures var o := RunRoutes(m, upstream, AllowlistedRoutes(name, denied, paths, hosts, ranges, s.assertUpstream) + rest, rq);
      if !PairTakes(m, hosts, paths, ranges, rq) then o == RunRoutes(m, upstream, rest, rq)
      else if FromRange(m, ranges, rq) then Reaches(s, rq, o)
      else o == Answered(403)
  {
    var pair := AllowlistedRoutes(name, denied, paths, hosts, ranges, s.assertUpstream);
    if pair == [] {
      assert pair + rest == rest;
    } else {
      PairIs(name, denied, paths, hosts, ranges, s.assertUpstream);
      assert pair + rest == [pair[0]] + ([pair[1]] + rest);
      AllowedMatch(m, pair[0], hosts, paths, ranges, rq);
      PathsMatch(m, pair[1], hosts, paths, rq);
      FirstDecides(m, upstream, pair[0], [pair[1]] + rest, rq);
      FirstDecides(m, upstream, pair[1], rest, rq);
      ProxiedAs(m, upstream, s, rq);
      AnswerSettles(m, upstream, 403, rq);
    }
  }

  lemma ApiDecides(m: Matching, upstream: Upstream, s: Settings, hosts: seq<string>, rest: seq<Json>, rq: Request)
    ensures var o := RunRoutes(m, upstream, ApiRoutes(hosts, s.assertUpstream) + rest, rq);
      if OnHost(m, hosts, rq) && OnPath(m, API_PATHS, rq)
      then o.Forwarded? && o.dial == s.assertUpstream && o.sent.headers.Keys !! RESERVED
      else o == RunRoutes(m, upstream, rest, rq)
  {
    var routes := ApiRoutes(hosts, s.assertUpstream);
    if routes == [] {
      assert routes + rest == rest;
    } else {
      ApiFields(routes[0], hosts, s.assertUpstream);
      PathsMatch(m, routes[0], hosts, API_PATHS, rq);
      FirstDecides(m, upstream, routes[0], rest, rq);
      StrippedForwards(m, upstream, s.assertUpstream, rq);
      assert routes + rest == [routes[0]] + rest;
    }
  }

  // --- the compiled configuration ---------------------------------------------------------------------------

  /** On the edge's own names, each allowlisted tree of paths and the public API, in that order. */
  ghost predicate Decided(m: Matching, s: Settings, hosts: seq<string>, rq: Request, o: Outcome) {
    if m.paths(HEALTH_PATH, rq.uri) then o == Answered(204)
    else if PairTakes(m, hosts, PORTAL_PATHS, s.portalRanges, rq) then
      if FromRange(m, s.portalRanges, rq) then Reaches(s, rq, o) else o == Answered(403)
    else if PairTakes(m, hosts, OPERATOR_PATHS, s.operatorRanges, rq) then
      if FromRange(m, s.operatorRanges, rq) then Reaches(s, rq, o) else o == Answered(403)
    else s.publicApi && OnHost(m, hosts, rq) && OnPath(m, API_PATHS, rq) ==>
      o.Forwarded? && o.dial == s.assertUpstream && o.sent.headers.Keys !! RESERVED
  }

  lemma Regrouped(health: Json, portal: seq<Json>, operator: seq<Json>, api: seq<Json>, apps: seq<Json>, unmatched: Json)
    ensures [health] + (portal + operator + api + apps) + [unmatched]
         == [health] + (portal + (operator + (api + (apps + [unmatched]))))
  {
  }

  lemma BuiltFromTheFront(groups: seq<Group>, hosts: seq<string>, s: Settings)
    ensures RoutesOf(Apps(s, MiddleRoutes(groups, hosts, s))) ==
      [HEALTH] + (PortalRoutes(hosts, s.portalRanges, s.assertUpstream)
        + (OperatorRoutes(hosts, s.operatorRanges, s.assertUpstream)
          + ((if s.publicApi then ApiRoutes(hosts, s.assertUpstream) else []) + (AppRoutes(groups, s) + [UNMATCHED]))))
  {
    RoutesOfBuilt(s, MiddleRoutes(groups, hosts, s));
    Regrouped(HEALTH, PortalRoutes(hosts, s.portalRanges, s.assertUpstream), OperatorRoutes(hosts, s.operatorRanges, s.assertUpstream),
              if s.publicApi then ApiRoutes(hosts, s.assertUpstream) else [], AppRoutes(groups, s), UNMATCHED);
  }

  lemma FixedRoutesDecide(m: Matching, upstream: Upstream, s: Settings, hosts: seq<string>, rest: seq<Json>, rq: Request)
    ensures var routes := [HEALTH] + (PortalRoutes(hosts, s.portalRanges, s.assertUpstream)
        + (OperatorRoutes(hosts, s.operatorRanges, s.assertUpstream)
          + ((if s.publicApi then ApiRoutes(hosts, s.assertUpstream) else []) + rest)));
      Decided(m, s, hosts, rq, RunRoutes(m, upstream, routes, rq))
  {
    var api := if s.publicApi then ApiRoutes(hosts, s.assertUpstream) else [];
    var operator := OperatorRoutes(hosts, s.operatorRanges, s.assertUpstream) + (api + rest);
    var portal := PortalRoutes(hosts, s.portalRanges, s.assertUpstream) + operator;
    HealthMatches(m, rq);
    HealthSettles(m, upstream, rq);
    FirstDecides(m, upstream, HEALTH, portal, rq);
    PairDecides(m, upstream, s, PORTAL_ROUTE, PORTAL_DENIED, PORTAL_PATHS, hosts, s.portalRanges, operator, rq);
    PairDecides(m, upstream, s, OPERATOR_ROUTE, OPERATOR_DENIED, OPERATOR_PATHS, hosts, s.operatorRanges, api + rest, rq);
    if s.publicApi {
      ApiDecides(m, upstream, s, hosts, rest, rq);
    }
  }

  /**
   * Under the compiled configuration the management API is reached exactly on the edge's own names: the
   * portal and the operator paths from their allowlists and otherwise refused, the API by everyone if it is
   * public, without the reserved headers.
   */
  lemma ManagementIsReached(m: Matching, db: Database, lookup: Lookup, api: Api, trusted: bool, rq: Request)
    ensures Decided(m, api.settings, PortalHosts(db, api.settings), rq,
                    Serve(m, db, api, trusted, BuildApps(db, lookup, api.settings), rq))
  {
    var s, hosts, groups := api.settings, PortalHosts(db, api.settings), GroupsFrom(db, lookup, 0);
    BuiltFromTheFront(groups, hosts, s);
    FixedRoutesDecide(m, Answers(db, api, trusted), s, hosts, AppRoutes(groups, s) + [UNMATCHED], rq);
  }
}
