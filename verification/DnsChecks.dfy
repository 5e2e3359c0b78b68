/** The ownership and routing checks and the status rules they drive (`app/services/dns_checks.py`). */
module DnsChecks {
  import opened Wrappers
  import opened Domains
  import opened Resolver

  const REVALIDATE_INTERVAL: Time := 6 * HOUR
  const OWNERSHIP_LOSS_GRACE: Time := 24 * HOUR
  const FAST_RECHECK_INTERVAL: Time := 30 * SECOND
  // Minutes to wait after the first, second, ... failed attempt; the last value repeats.
  const BACKOFF_MINUTES: seq<int> := [1, 2, 5, 15, 30, 60]

  datatype Outcome = Outcome(status: CheckStatus, errorCode: Option<string>) {
    predicate Passes() {
      status.Passing?
    }
  }

  const PASSES: Outcome := Outcome(Passing, None)

  function Fails(code: string): Outcome {
    Outcome(Failing, Some(code))
  }

  function TxtRecordName(row: Row): string {
    "_custom-domain-challenge." + row.hostname
  }

  function TxtRecordValue(claim: Claim): string {
    "custom-domain-verify=" + claim.token
  }

  predicate IsSpace(c: char) {
    c == ' ' || c == '\t' || c == '\n' || c == '\r'
  }

  function Strip(s: string): string
    decreases |s|
  {
    if s == [] then s
    else if IsSpace(s[0]) then Strip(s[1..])
    else if IsSpace(s[|s| - 1]) then Strip(s[..|s| - 1])
    else s
  }

  predicate Blank(s: string) {
    forall c | c in s :: IsSpace(c)
  }

  /** What is left has no space at either end, and only spaces were taken off. */
  lemma {:induction false} StripTrims(s: string) returns (before: string, after: string)
    ensures s == before + Strip(s) + after && Blank(before) && Blank(after)
    ensures Strip(s) != "" ==> !IsSpace(Strip(s)[0]) && !IsSpace(Strip(s)[|Strip(s)| - 1])
    decreases |s|
  {
    before, after := "", "";
    if s != [] {
      var n := |s| - 1;
      if IsSpace(s[0]) {
        before, after := StripTrims(s[1..]);
        before := [s[0]] + before;
      } else if IsSpace(s[n]) {
        before, after := StripTrims(s[..n]);
        after := after + [s[n]];
      }
    }
  }

  function StaleValues(claims: seq<Claim>): set<string> {
    set c | c in claims && c.status.ClaimRevoked? :: TxtRecordValue(c)
  }

  function OwnershipOutcome(dns: Resolver, row: Row): (outcome: Outcome)
    ensures !outcome.status.Pending?
  {
    var claim := ActiveClaim(row);
    if claim.None? then Fails("claim_revoked")
    else
      match dns.Txt(TxtRecordName(row))
      case Failure(NameNotFound) => Fails("txt_record_not_found")
      case Failure(Unavailable) => Fails("dns_timeout")
      case Success(values) =>
        if values == [] then Fails("txt_record_not_found")
        else if exists v | v in values :: Strip(v) == TxtRecordValue(claim.value) then PASSES
        else if exists v | v in values :: Strip(v) in StaleValues(row.claims) then Fails("txt_token_stale")
        else Fails("txt_token_mismatch")
  }

  function RoutingOutcome(dns: Resolver, row: Row): (outcome: Outcome)
    ensures !outcome.status.Pending?
  {
    var claim := ActiveClaim(row);
    if claim.None? then Fails("claim_revoked")
    else
      match CnameChain(dns, row.hostname, claim.value.cnameTarget)
      case Failure(NameNotFound) => Fails("cname_not_found")
      case Failure(Unavailable) => Fails("dns_timeout")
      case Success(chain) =>
        if chain == [] then Fails("cname_not_found")
        else if claim.value.cnameTarget in chain then PASSES
        else Fails("cname_target_mismatch")
  }

  function Backoff(attempts: nat): Time
    requires attempts >= 1
  {
    BACKOFF_MINUTES[(if attempts < |BACKOFF_MINUTES| then attempts else |BACKOFF_MINUTES|) - 1] * MINUTE
  }

  /** What to store for an outcome: the streak of failures so far and when to look again. */
  function ScheduleNext(check: Option<Check>, outcome: Outcome, now: Time): Observation {
    if outcome.Passes() then
      Observation(outcome.status, outcome.errorCode, 0, None, Some(now + REVALIDATE_INTERVAL))
    else
      var attempts := (if check.Some? then check.value.attempts else 0) + 1;
      var since := if check.Some? && check.value.failingSince.Some?
                   then check.value.failingSince else Some(now);
      Observation(outcome.status, outcome.errorCode, attempts, since, Some(now + Backoff(attempts)))
  }

  /** `fast`: a Domain Connect link was issued or followed in the last half hour. */
  function DnsObservation(row: Row, check: CheckType, outcome: Outcome, fast: bool, now: Time): Observation {
    var seen := ScheduleNext(row.checks.Get(check), outcome, now);
    if fast && !outcome.Passes() && seen.nextCheckAt.Some? && now + FAST_RECHECK_INTERVAL < seen.nextCheckAt.value
    then seen.(nextCheckAt := Some(now + FAST_RECHECK_INTERVAL))
    else seen
  }

  /** The status rules, once both outcomes are stored. */
  function DnsStatusRules(row: Row, ownership: Outcome, routing: Outcome, now: Time): Result<Row, Error> {
    var claim := ActiveClaim(row);
    if ownership.Passes() && routing.Passes() then
      var verified :- if claim.Some? && claim.value.status.ClaimPending?
                      then MarkClaimVerified(row, DnsTxt, now)
                      else Success(row);
      if verified.status in {PendingDns, Suspended} then Transition(verified, Provisioning, DnsVerified, now)
      else if verified.status.AttentionRequired? && ChecksPassing(verified) then
        Transition(verified, Ready, Recovered, now)
      else Success(verified)
    else if row.status.Provisioning? then
      Transition(row, PendingDns, CheckFailed(if !ownership.Passes() then Ownership else Routing), now)
    else if
      && row.status.AttentionRequired?
      && !ownership.Passes()
      && HasVerifiedClaim(row)
      && row.checks.ownership.Some? && row.checks.ownership.value.failingSince.Some?
      && now - row.checks.ownership.value.failingSince.value >= OWNERSHIP_LOSS_GRACE
    then Transition(row, Suspended, OwnershipLost, now)
    else Success(row)
  }

  function StoreDns(row: Row, ownership: Outcome, routing: Outcome, fast: bool, now: Time): Result<Row, Error> {
    RecordTwo(row, Ownership, DnsObservation(row, Ownership, ownership, fast, now),
              Routing, DnsObservation(row, Routing, routing, fast, now), now)
  }

  function ApplyDns(row: Row, ownership: Outcome, routing: Outcome, fast: bool, now: Time): Result<Row, Error> {
    var stored :- StoreDns(row, ownership, routing, fast, now);
    DnsStatusRules(stored, ownership, routing, now)
  }

  // --- what the outcomes mean ---------------------------------------------------------------

  /** The TXT record named in the row's live claim holds that claim's value. */
  ghost predicate ShowsToken(dns: Resolver, hostname: string, token: string) {
    && dns.Txt("_custom-domain-challenge." + hostname).Success?
    && exists v | v in dns.Txt("_custom-domain-challenge." + hostname).value :: Strip(v) == "custom-domain-verify=" + token
  }

  /** Both DNS checks pass exactly when DNS shows the live claim's own token and leads to its own target. */
  lemma DnsOutcomesMean(dns: Resolver, row: Row)
    requires ActiveClaim(row).Some?
    ensures var claim := ActiveClaim(row).value;
      && (OwnershipOutcome(dns, row).Passes() <==> ShowsToken(dns, row.hostname, claim.token))
      && (RoutingOutcome(dns, row).Passes() <==>
          && dns.Cname(row.hostname) != Success(Some(row.hostname))
          && Reaches(dns, row.hostname, claim.cnameTarget))
  {
    var claim := ActiveClaim(row).value;
    ChainIsBoundedReachability(dns, row.hostname, claim.cnameTarget);
    assert Hop(dns, row.hostname, 0) == Some(row.hostname);
    if Reaches(dns, row.hostname, claim.cnameTarget) {
      var n: nat :| 0 < n <= MAX_CNAME_HOPS && Hop(dns, row.hostname, n) == Some(claim.cnameTarget);
      if dns.Cname(row.hostname).Failure? {
        HopEnds(dns, row.hostname, 1, n);
      }
    }
    if dns.Txt(TxtRecordName(row)).Success? {
      var values := dns.Txt(TxtRecordName(row)).value;
      assert (exists v | v in values :: Strip(v) == TxtRecordValue(claim)) ==> values != [];
    }
  }

  /** Why ownership fails: which error code means what. */
  lemma OwnershipErrorsMean(dns: Resolver, row: Row)
    ensures var code := OwnershipOutcome(dns, row).errorCode;
      var answer := dns.Txt("_custom-domain-challenge." + row.hostname);
      && (code.None? <==> OwnershipOutcome(dns, row).Passes())
      && (code == Some("claim_revoked") <==> ActiveClaim(row).None?)
      && (ActiveClaim(row).Some? ==>
            var live := ActiveClaim(row).value;
            && (code == Some("dns_timeout") <==> answer == Failure(Unavailable))
            && (code == Some("txt_record_not_found") <==> answer == Failure(NameNotFound) || answer == Success([]))
            && (code == Some("txt_token_stale") <==>
                  !ShowsToken(dns, row.hostname, live.token)
                  && exists c | c in row.claims :: c.status.ClaimRevoked? && ShowsToken(dns, row.hostname, c.token))
            && (code == Some("txt_token_mismatch") <==>
                  && answer.Success? && answer.value != [] && !ShowsToken(dns, row.hostname, live.token)
                  && forall c | c in row.claims && c.status.ClaimRevoked? :: !ShowsToken(dns, row.hostname, c.token)))
  {
    if ActiveClaim(row).Some? && dns.Txt(TxtRecordName(row)).Success? {
      var values := dns.Txt(TxtRecordName(row)).value;
      forall c | c in row.claims && c.status.ClaimRevoked?
        ensures ShowsToken(dns, row.hostname, c.token) <==> exists v | v in values :: Strip(v) == TxtRecordValue(c)
        ensures TxtRecordValue(c) in StaleValues(row.claims)
      {
      }
    }
  }

  /** Why routing fails. */
  lemma RoutingErrorsMean(dns: Resolver, row: Row)
    ensures var code := RoutingOutcome(dns, row).errorCode;
      && (code.None? <==> RoutingOutcome(dns, row).Passes())
      && (code == Some("claim_revoked") <==> ActiveClaim(row).None?)
      && (ActiveClaim(row).Some? ==>
            var chain := CnameChain(dns, row.hostname, ActiveClaim(row).value.cnameTarget);
            && (code == Some("dns_timeout") <==> chain == Failure(Unavailable))
            && (code == Some("cname_not_found") <==> chain == Failure(NameNotFound) || chain == Success([]))
            && (code == Some("cname_target_mismatch") <==>
                  chain.Success? && chain.value != [] && ActiveClaim(row).value.cnameTarget !in chain.value))
  {
  }
}
