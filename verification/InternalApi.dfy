/** What the management API tells the edge: the decision per request and the facts (`app/v1/internal.py`). */
module InternalApi {
  import opened Wrappers
  import opened Texts
  import opened EdgeConfig
  import opened Gateway
  import opened AssertionToken
  import Domains

  const WORKSPACE_PATH := "/.well-known/custom-domain-workspace"

  // --- the decision per request --------------------------------------------------------------------

  // The headers of an assertion request; an absent one is empty.
  datatype AssertRequest = AssertRequest(
    trusted: bool, token: string, host: string, sni: string, requestId: string, uri: string)

  // What a decision reads besides the database: the settings, the canonical form of hostnames, the key
  // that signs for an application, the lifetime of assertions and the clock.
  datatype Api = Api(settings: Settings, canon: Canon, signer: nat -> string, ttl: int, now: int)

  function FindLive(rows: seq<Domains.Row>, hostname: string): (i: nat)
    ensures i <= |rows|
    ensures i < |rows| ==> rows[i].deletedAt.None? && rows[i].hostname == hostname
    ensures forall j | 0 <= j < i :: rows[j].deletedAt.Some? || rows[j].hostname != hostname
  {
    if rows == [] || (rows[0].deletedAt.None? && rows[0].hostname == hostname) then 0
    else 1 + FindLive(rows[1..], hostname)
  }

  function HostName(host: string): string {
    if Count(host, ':') == 1 then BeforeFirst(host, ':') else host
  }

  function RequestIdOf(sent: string): string {
    if sent == "" then "unknown" else if |sent| > 64 then sent[..64] else sent
  }

  /** The assertion about the live row of the requested host, or the status that stops the request. */
  function EdgeAssert(db: Database, api: Api, rq: AssertRequest): Result<Assertion, int> {
    var s := api.settings;
    if !rq.trusted || (s.edgeToken != "" && rq.token != s.edgeToken) then Failure(403)
    else if !s.hasAssertionKeys then Failure(503)
    else if rq.host == "" then Failure(403)
    else
      var hostname := api.canon(HostName(rq.host));
      if hostname.None? then Failure(403)
      else if rq.sni != "" && rq.sni[0] != '{' && api.canon(rq.sni) != hostname then Failure(403)
      else if api.canon(hostname.value).None? then Failure(500)
      else
        var i := FindLive(db.domains, api.canon(hostname.value).value);
        if i == |db.domains| then Failure(403)
        else
          var row := db.domains[i];
          if !Serveable(db, row) && !(Routable(db, row) && BeforeFirst(rq.uri, '?') == WORKSPACE_PATH) then Failure(403)
          else if ServingOrigin(db.apps[row.applicationId]).None? then Failure(403)
          else Success(Assertion(
            Payload(Decimal(row.applicationId), Decimal(i), row.reference, hostname.value,
                    api.now, api.now + api.ttl, RequestIdOf(rq.requestId)),
            api.signer(row.applicationId)))
  }

  /** When, exactly, a request is allowed. */
  lemma AllowedExactly(db: Database, api: Api, rq: AssertRequest)
    requires forall host: string :: api.canon(host).Some? ==> api.canon(api.canon(host).value) == api.canon(host)
    ensures EdgeAssert(db, api, rq).Success? <==>
      && rq.trusted && (api.settings.edgeToken == "" || rq.token == api.settings.edgeToken)
      && api.settings.hasAssertionKeys
      && rq.host != "" && api.canon(HostName(rq.host)).Some?
      && (rq.sni == "" || rq.sni[0] == '{' || api.canon(rq.sni) == api.canon(HostName(rq.host)))
      && exists i | 0 <= i < |db.domains| :: FindLive(db.domains, api.canon(HostName(rq.host)).value) == i
           && ServingFrom(db, db.domains[i], BeforeFirst(rq.uri, '?'))
  {
  }

  /** Any other request is refused: as unavailable while no key could sign, as forbidden in every other case. */
  lemma RefusalsAre(db: Database, api: Api, rq: AssertRequest)
    requires forall host: string :: api.canon(host).Some? ==> api.canon(api.canon(host).value) == api.canon(host)
    ensures var decision := EdgeAssert(db, api, rq);
      var known := rq.trusted && (api.settings.edgeToken == "" || rq.token == api.settings.edgeToken);
      decision.Failure? ==> decision.error == if known && !api.settings.hasAssertionKeys then 503 else 403
  {
  }

  lemma {:induction false} NoMarkNoCount(s: string, mark: char)
    requires mark !in s
    ensures Count(s, mark) == 0 && BeforeFirst(s, mark) == s
  {
    if s != [] {
      NoMarkNoCount(s[1..], mark);
      assert s == [s[0]] + s[1..];
    }
  }

  lemma {:induction false} FirstMark(first: string, mark: char, rest: string)
    requires mark !in first
    ensures Count(first + [mark] + rest, mark) == 1 + Count(rest, mark) && BeforeFirst(first + [mark] + rest, mark) == first
  {
    var s := first + [mark] + rest;
    if first == [] {
      assert s[0] == mark && s[1..] == rest;
    } else {
      FirstMark(first[1..], mark, rest);
      assert s[0] == first[0] && s[1..] == first[1..] + [mark] + rest;
      assert first == [first[0]] + first[1..];
    }
  }

  /** A port is taken off a name, and an IPv6 address keeps its colons. */
  lemma HostNameIs(name: string, port: string, rest: string)
    requires ':' !in name && ':' !in port
    ensures HostName(name) == name && HostName(name + ":" + port) == name
    ensures HostName(name + ":" + port + ":" + rest) == name + ":" + port + ":" + rest
  {
    NoMarkNoCount(name, ':');
    NoMarkNoCount(port, ':');
    FirstMark(name, ':', port);
    FirstMark(port, ':', rest);
    FirstMark(name, ':', port + [':'] + rest);
    assert name + ":" + port + ":" + rest == name + [':'] + (port + [':'] + rest);
  }

  /** The row's application has an origin, and the row is serveable, or routable and probed. */
  predicate ServingFrom(db: Database, row: Domains.Row, path: string) {
    && row.applicationId < |db.apps| && ServingOrigin(db.apps[row.applicationId]).Some?
    && (Serveable(db, row) || (Routable(db, row) && path == WORKSPACE_PATH))
  }

  // --- the facts -----------------------------------------------------------------------------------

  datatype Offer = Offer(host: string, dial: string)

  predicate OfferAtMost(a: Offer, b: Offer) {
    if a.host == b.host then AtMost(a.dial, b.dial) else AtMost(a.host, b.host)
  }

  function OffersOf(origin: Origin, lookup: Lookup): seq<Offer> {
    var addresses := lookup(origin.host);
    seq(|addresses|, i requires 0 <= i < |addresses| => Offer(origin.host, Dial(addresses[i], origin.port)))
  }

  /** The active, verified origins of the active applications. */
  function OfferedOrigins(apps: seq<Application>): seq<Origin> {
    if apps == [] then [] else (if apps[0].active then Current(apps[0].origins) else []) + OfferedOrigins(apps[1..])
  }

  function Current(origins: seq<Origin>): seq<Origin> {
    if origins == [] then []
    else (if origins[0].active && origins[0].verified then [origins[0]] else []) + Current(origins[1..])
  }

  function Offers(origins: seq<Origin>, lookup: Lookup): seq<Offer> {
    if origins == [] then [] else OffersOf(origins[0], lookup) + Offers(origins[1..], lookup)
  }

  /** As the gateway reads the list into a dictionary: of two entries for one address the later one counts. */
  function Upstreams(offers: seq<Offer>): map<string, string> {
    if offers == [] then map[]
    else Upstreams(offers[..|offers| - 1])[offers[|offers| - 1].dial := offers[|offers| - 1].host]
  }

  function EdgeFacts(db: Database, lookup: Lookup, s: Settings): Facts {
    var offers := SortBy(OfferAtMost, Offers(OfferedOrigins(db.apps), lookup));
    Facts(Upstreams(offers), AsSet(PortalHosts(db, s)), s.portalRanges, s.publicApi, s.operatorRanges)
  }

  method EdgeOrigins(db: Database, lookup: Lookup, s: Settings) returns (facts: Facts)
    ensures facts == EdgeFacts(db, lookup, s)
  {
    var origins := OfferedOrigins(db.apps);
    var offers: seq<Offer> := [];
    for i := 0 to |origins|
      invariant offers + Offers(origins[i..], lookup) == Offers(origins, lookup)
    {
      offers := offers + OffersOf(origins[i], lookup);
      assert origins[i..][1..] == origins[i + 1..];
    }
    assert origins[|origins|..] == [];
    assert offers + [] == offers;
    offers := SortBy(OfferAtMost, offers);
    var hosts := CollectPortalHosts(db, s);
    facts := Facts(Upstreams(offers), AsSet(hosts), s.portalRanges, s.publicApi, s.operatorRanges);
  }

  lemma OfferOrder()
    ensures TotalOrder(OfferAtMost)
  {
    forall a, b
      ensures OfferAtMost(a, b) || OfferAtMost(b, a)
    {
      AtMostTotal(a.host, b.host);
      AtMostTotal(a.dial, b.dial);
    }
    forall a, b, c | OfferAtMost(a, b) && OfferAtMost(b, c)
      ensures OfferAtMost(a, c)
    {
      if a.host == b.host && b.host == c.host {
        AtMostTransitive(a.dial, b.dial, c.dial);
      } else if a.host == c.host {
        AtMostAntisymmetric(a.host, b.host);
      } else if a.host != b.host && b.host != c.host {
        AtMostTransitive(a.host, b.host, c.host);
      }
    }
  }

  lemma OfferHosts(a: Offer, b: Offer)
    requires OfferAtMost(a, b)
    ensures AtMost(a.host, b.host)
  {
    AtMostTotal(a.host, b.host);
  }

  ghost predicate GreatestFor(offers: seq<Offer>, dial: string, host: string) {
    && Offer(host, dial) in offers
    && forall o | o in offers && o.dial == dial :: AtMost(o.host, host)
  }

  lemma {:induction false} LastCounts(offers: seq<Offer>, dial: string)
    requires forall i, j | 0 <= i < j < |offers| :: AtMost(offers[i].host, offers[j].host)
    ensures dial in Upstreams(offers) <==> exists o :: o in offers && o.dial == dial
    ensures dial in Upstreams(offers) ==> GreatestFor(offers, dial, Upstreams(offers)[dial])
  {
    if offers != [] {
      var before, last := offers[..|offers| - 1], offers[|offers| - 1];
      LastCounts(before, dial);
      assert offers == before + [last];
      AtMostTotal(last.host, last.host);
      if dial == last.dial {
        assert last in offers;
      } else if dial in Upstreams(before) {
        assert GreatestFor(before, dial, Upstreams(before)[dial]);
      }
    }
  }

  /** An address is listed exactly when some origin offers it, under the greatest of the names offering it. */
  lemma UpstreamIsGreatest(offers: seq<Offer>, dial: string)
    ensures var upstreams := Upstreams(SortBy(OfferAtMost, offers));
      && (dial in upstreams <==> exists o :: o in offers && o.dial == dial)
      && (dial in upstreams ==> GreatestFor(offers, dial, upstreams[dial]))
  {
    OfferOrder();
    var sorted := SortBy(OfferAtMost, offers);
    SortBySorts(OfferAtMost, offers);
    forall i, j | 0 <= i < j < |sorted|
      ensures AtMost(sorted[i].host, sorted[j].host)
    {
      OrderedPairs(OfferAtMost, sorted, i, j);
      OfferHosts(sorted[i], sorted[j]);
    }
    LastCounts(sorted, dial);
    forall o: Offer
      ensures o in sorted <==> o in offers
    {
      SortByHasSame(OfferAtMost, offers, o);
    }
  }
}
