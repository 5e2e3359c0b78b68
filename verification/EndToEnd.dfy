/**
 * Results that span the parts. From the edge to the origin's own check: the assertion the edge forwards
 * under the current configuration is one that the origin of the hostname's owner accepts
 * (`app/v1/internal.py`, `sdk/custom_domain/assertion.py`). And from the registrations to the edge: the
 * agreement of compiler and validator for every database that registrations lead to.
 */
module EndToEnd {
  import opened Wrappers
  import opened Texts
  import opened Json
  import opened EdgeConfig
  import opened Gateway
  import opened InternalApi
  import opened Caddy
  import opened Serving
  import opened Agreement
  import opened OwnOrigin
  import opened AssertionToken
  import Domains
  import Registry

  /** The live row of the requested host. */
  function RequestedRow(db: Database, api: Api, rq: Request): Option<Domains.Row> {
    var hostname := api.canon(HostName(rq.host));
    if hostname.None? then None
    else
      var i := FindLive(db.domains, hostname.value);
      if i < |db.domains| then Some(db.domains[i]) else None
  }

  /** What a forwarded assertion says, in terms of the row that owns the host. */
  lemma AssertedRow(db: Database, lookup: Lookup, api: Api, facts: Facts, rq: Request, o: Outcome)
    requires DatabaseOk(db, api.canon)
    requires ToAnOrigin(db, api, facts, rq, o) && ToItsOwner(db, lookup, api, rq, o)
    ensures var row, a := RequestedRow(db, api, rq), o.sent.headers[ASSERTION_HEADER].assertion;
      && row.Some?
      && a.keyId == api.signer(row.value.applicationId) && a.payload.applicationId == Decimal(row.value.applicationId)
      && a.payload.reference == row.value.reference && Some(a.payload.hostname) == api.canon(HostName(rq.host))
      && a.payload.issuedAt == api.now && a.payload.expiresAt == api.now + api.ttl
  {
    var hostname := api.canon(HostName(rq.host)).value;
    var row := db.domains[FindLive(db.domains, hostname)];
    assert row in db.domains && row.deletedAt.None? && row.hostname == hostname;
  }

  /**
   * The request carries a token for the row `row`, which the origin accepts for the host it sees exactly
   * while its clock is in the window and the signer's key id has no dot, learning the row's reference.
   */
  ghost predicate AcceptedAtOrigin(api: Api, row: Domains.Row, o: Outcome, codec: Codec, keys: map<string, string>, seen: string,
                                   now: int, skew: int) {
    && o.Forwarded? && ASSERTION_HEADER in o.sent.headers && o.sent.headers[ASSERTION_HEADER].Token?
    && var a := o.sent.headers[ASSERTION_HEADER].assertion;
    && a.keyId == api.signer(row.applicationId) && a.keyId in keys
    && var token := Sign(codec, a.keyId, keys[a.keyId], a.payload);
    var verified := VerifyAtOrigin(codec, token, keys, Decimal(row.applicationId), Some(seen), now, skew);
    && (verified.Success? <==> '.' !in a.keyId && api.now - skew <= now <= api.now + api.ttl + skew)
    && (verified.Success? ==> verified.value.payload.reference == row.reference)
  }

  lemma AssertedIsAccepted(api: Api, row: Domains.Row, o: Outcome, codec: Codec, keys: map<string, string>, seen: string, now: int,
                           skew: int)
    requires o.Forwarded? && ASSERTION_HEADER in o.sent.headers && o.sent.headers[ASSERTION_HEADER].Token?
    requires var a := o.sent.headers[ASSERTION_HEADER].assertion;
      && a.keyId == api.signer(row.applicationId) && a.payload.applicationId == Decimal(row.applicationId)
      && a.payload.reference == row.reference && a.payload.hostname == StripRight(Lower(seen), '.')
      && a.payload.issuedAt == api.now && a.payload.expiresAt == api.now + api.ttl
    requires codec.ReadsBack() && api.signer(row.applicationId) in keys
    ensures AcceptedAtOrigin(api, row, o, codec, keys, seen, now, skew)
  {
    var a := o.sent.headers[ASSERTION_HEADER].assertion;
    SignedVerifiesAtOrigin(codec, a.keyId, keys[a.keyId], a.payload, keys, Decimal(row.applicationId), Some(seen), now, skew);
  }

  lemma OwnedIsAccepted(db: Database, lookup: Lookup, api: Api, facts: Facts, rq: Request, o: Outcome, codec: Codec,
                        keys: map<string, string>, seen: string, now: int, skew: int)
    requires DatabaseOk(db, api.canon) && codec.ReadsBack()
    requires ToAnOrigin(db, api, facts, rq, o) && ToItsOwner(db, lookup, api, rq, o)
    requires RequestedRow(db, api, rq).Some? ==> api.signer(RequestedRow(db, api, rq).value.applicationId) in keys
    requires api.canon(HostName(rq.host)) == Some(StripRight(Lower(seen), '.'))
    ensures RequestedRow(db, api, rq).Some?
    ensures AcceptedAtOrigin(api, RequestedRow(db, api, rq).value, o, codec, keys, seen, now, skew)
  {
    AssertedRow(db, lookup, api, facts, rq, o);
    AssertedIsAccepted(api, RequestedRow(db, api, rq).value, o, codec, keys, seen, now, skew);
  }

  /**
   * A request that leaves the edge for an origin under the current configuration carries a token that the
   * origin of the hostname's owner, if it knows the key of the application's signer, accepts in this sense.
   * `seen` is the forwarded host, in whatever case.
   */
  lemma OwnerAcceptsTheToken(m: Matching, db: Database, lookup: Lookup, api: Api, trusted: bool, rq: Request,
                             codec: Codec, keys: map<string, string>, seen: string, now: int, skew: int)
    requires DatabaseOk(db, api.canon) && HostsMatchCanonically(m, api.canon) && rq.uri.Lit? && codec.ReadsBack()
    requires Accepts(BuildApps(db, lookup, api.settings), api.settings, EdgeFacts(db, lookup, api.settings), api.canon)
    requires RequestedRow(db, api, rq).Some? ==> api.signer(RequestedRow(db, api, rq).value.applicationId) in keys
    requires api.canon(HostName(rq.host)) == Some(StripRight(Lower(seen), '.'))
    ensures var facts, o := EdgeFacts(db, lookup, api.settings), Serve(m, db, api, trusted, BuildApps(db, lookup, api.settings), rq);
      || o.Answered?
      || ToTheManagementApi(m, api.settings, facts, rq, o)
      || (RequestedRow(db, api, rq).Some?
          && AcceptedAtOrigin(api, RequestedRow(db, api, rq).value, o, codec, keys, seen, now, skew))
  {
    var facts := EdgeFacts(db, lookup, api.settings);
    var o := Serve(m, db, api, trusted, BuildApps(db, lookup, api.settings), rq);
    CurrentConfigurationServesTheOwner(m, db, lookup, api, trusted, rq);
    if !o.Answered? && !ToTheManagementApi(m, api.settings, facts, rq, o) {
      OwnedIsAccepted(db, lookup, api, facts, rq, o, codec, keys, seen, now, skew);
    }
  }

  // --- databases that registrations lead to --------------------------------------------------------------

  lemma RowsWithout(rows: seq<Domains.Row>, k: nat)
    requires k < |rows|
    ensures var rest := rows[..k] + rows[k + 1..];
      && multiset(rows) == multiset(rest) + multiset{rows[k]}
      && (LiveOnce(rows) ==> LiveOnce(rest))
      && (LiveOnce(rows) && rows[k].deletedAt.None? ==>
            forall row | row in rest && row.deletedAt.None? :: row.hostname != rows[k].hostname)
  {
    var rest := rows[..k] + rows[k + 1..];
    assert rows == rows[..k] + ([rows[k]] + rows[k + 1..]);
    forall row | row in rest
      ensures exists j :: 0 <= j < |rows| && j != k && rows[j] == row
    {
      var j :| 0 <= j < |rest| && rest[j] == row;
      assert rows[if j < k then j else j + 1] == row;
    }
  }

  lemma SameWithoutFirst(rows: seq<Domains.Row>, sorted: seq<Domains.Row>, k: nat)
    requires sorted != [] && k < |rows| && rows[k] == sorted[0] && multiset(rows) == multiset(sorted)
    ensures multiset(rows[..k] + rows[k + 1..]) == multiset(sorted[1..])
  {
    RowsWithout(rows, k);
    assert sorted == [sorted[0]] + sorted[1..];
    assert multiset(sorted) == multiset(sorted[1..]) + multiset{sorted[0]};
    assert multiset(rows[..k] + rows[k + 1..]) == multiset(rows) - multiset{rows[k]};
  }

  /** Whether live rows are unique does not depend on the order they are listed in. */
  lemma {:induction false} LiveOnceInAnyOrder(rows: seq<Domains.Row>, sorted: seq<Domains.Row>)
    requires multiset(rows) == multiset(sorted) && LiveOnce(rows)
    ensures LiveOnce(sorted)
    decreases |sorted|
  {
    if sorted != [] {
      var first, others := sorted[0], sorted[1..];
      assert first in multiset(rows);
      var k :| 0 <= k < |rows| && rows[k] == first;
      var rest := rows[..k] + rows[k + 1..];
      RowsWithout(rows, k);
      SameWithoutFirst(rows, sorted, k);
      LiveOnceInAnyOrder(rest, others);
      forall j | 0 < j < |sorted|
        ensures sorted[j] in rest
      {
        assert sorted[j] == others[j - 1];
        assert sorted[j] in multiset(others);
      }
    }
  }

  lemma RegisteredIsOk(book: Registry.Book, db: Database, canon: Canon)
    requires Registry.BookOk(book, canon) && multiset(db.domains) == multiset(book.rows)
    requires forall app | app in db.apps :: LimitOk(app.perMinute) && LimitOk(app.perSecond)
    ensures DatabaseOk(db, canon)
  {
    LiveOnceInAnyOrder(book.rows, db.domains);
    forall row | row in db.domains
      ensures row in book.rows
    {
      assert row in multiset(db.domains);
    }
  }

  /**
   * After any run of registrations, imports, deletions and other changes, with limits the operator API
   * accepts, the compiled configuration is accepted exactly under the condition on shared addresses.
   */
  lemma RegisteredDatabasesAgree(apps: seq<Registry.App>, limit: Option<nat>, actions: seq<Registry.Action>,
                                 db: Database, lookup: Lookup, s: Settings, canon: Canon)
    requires Registry.Idempotent(canon) && multiset(db.domains) == multiset(Registry.Run(apps, limit, canon, actions).rows)
    requires forall app | app in db.apps :: LimitOk(app.perMinute) && LimitOk(app.perSecond)
    ensures var offers := Offers(OfferedOrigins(db.apps), lookup);
      Accepts(BuildApps(db, lookup, s), s, EdgeFacts(db, lookup, s), canon) <==>
        forall g | g in GroupsFrom(db, lookup, 0) ::
          (g.origin.scheme.PlainHttp? && g.origin.hostMode.CustomerHost?) || !AnotherNameWins(g, offers)
  {
    Registry.OneLiveRowPerHostname(apps, limit, canon, actions);
    RegisteredIsOk(Registry.Run(apps, limit, canon, actions), db, canon);
    CompilerAndValidatorAgree(db, lookup, s, canon);
  }
}
