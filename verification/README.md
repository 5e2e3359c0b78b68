# Custom-domain service: a verified model

The service lets customers of several applications bring their own hostnames: it proves ownership
through DNS, keeps the checks going, compiles the routes of a Caddy edge, signs an assertion for every
request, delivers lifecycle events and meters the traffic. This project models the parts in which many
actors change shared state and proves what the service promises about them. `dafny verify
dfyconfig.toml` checks everything.

How to read it, from the domain outwards:

- **One domain.** `Domains`, `Resolver`, `DnsChecks` and `EdgeChecks` say what each call makes of a
  domain's row, and `DomainRecord` and `WorkerTransactions` do the same by assigning fields step by
  step and are verified against them. `Lifecycle` has the invariant each call keeps. `Worker` is the
  protocol: any number of workers between their transactions, with re-issues, rechecks, deletions and
  lapsed leases in every gap. `Interleaving` proves the invariant of that system,
  `DomainGuarantees` what follows for every run, and `Observations` what stored results say about DNS.
  `PassRules` says what status, events and due times a pass leads to, and `Progress` that current
  results are applied and that an undisturbed worker makes a domain ready.
- **The edge.** `EdgeConfig` compiles the database into JSON, `Gateway` decides whether to accept it,
  `InternalApi` decides about each request and states the gateway's facts, and `Caddy` is a first-match
  interpreter of the configuration. `Serving` proves end-to-end safety under any accepted
  configuration, `Agreement` that compiler and validator agree, `OwnOrigin` that a current
  configuration serves the owner, `ServedDomains` joins this to the lifecycle, `EndToEnd` to the
  origin's own check and to the registrations, and `Reconcile` orders the writes.
  `Shapes` reads accepted configurations and compiled routes field by field, `Compiled` says which
  routes, addresses and names a database compiles to, and `Management` who reaches the management API.
- **Events.** `Webhooks` has the outbox and the delivery protocol, `DeliveryRuns` what overlapping
  attempts and replays can do to a delivery, `Settling` the deliveries of deleted applications,
  `Notifications` which event of a domain's log notifies whom of what, and `Consumer` the sample
  consumer and its convergence.
- **Traffic.** `Traffic` turns readings into increases over all hosts; `Metering` follows one host
  through restarts and rolled back runs; `MeteredEdge` joins the two over all hosts, with `Totals`.
- **Bounded structures.** `Throttle` and, counted over clients, `Clients`; `Registry` and, counted over
  rows and events, `Admission`; `AssertionToken`, `AssertionKeys` and `Origins`.

`Wrappers`, `Texts` and `Json` are shared vocabulary: the words the configuration code writes itself are
numbered constants, so that two different words differ by construction, and `Lit` is any other text.

What the proofs turned up:

- A key id that contains a dot makes every token signed with it malformed (`AssertionToken.OpenSigned`).
- A configuration is refused exactly when a routed address is also offered under a greater origin name,
  unless the route is plain HTTP with the customer's hostname (`Agreement.CompilerAndValidatorAgree`);
  nothing stops two applications from registering such origins (`Agreement.SharedAddressCounterexample`).
- `app/services/traffic.py` says a configuration change loses the requests between reading and reset;
  those served between the change and the reset are in fact counted, so only the ones between the
  reading and the change are lost (`Metering.OnlyRestartsLose`).
- A delivery can end up both delivered and abandoned: exactly when two attempts overlap and settle it
  differently (`DeliveryRuns.BothMarksExactly`), each writing its mark without looking at the other
  (`DeliveryRuns.BothMarksStep`). A lapsed lease shows both routes: a last failure against a success
  (`DeliveryRuns.LapsedLeaseCounterexample`), and a revoked subscription after a success
  (`DeliveryRuns.RevokedAfterDeliveryCounterexample`).
- A replay can be lost exactly when an attempt that loaded the row before it is still sending
  (`DeliveryRuns.ReplayLostExactly`, `DeliveryRuns.ReplayInFlightCounterexample`), and one under a revoked
  subscription is accepted but never sent (`Settling.LateReplayIsGivenUp`).
- `retry_after` would be wrong over a list of all failures (`Throttle.UntruncatedWaitCounterexample`); it
  is right because the list is truncated (`Throttle.WaitingSuffices`).

## Model

| member | source | states |
|---|---|---|
| `Resolver.FollowCnames` | app/dns/resolver.py:49-78 | The loop ends on every CNAME graph, loops included, and returns exactly the specified walk |
| `Resolver.ChainIsBoundedReachability` | app/dns/resolver.py:49-78 | The chain contains the target exactly when the target is reachable within eight hops before any lookup error; the target equal to a self-referring start name is the one exception |
| `Resolver.ChainFindsOtherTargets` | app/dns/resolver.py:49-78 | For a target other than the start name, membership in the chain is bounded reachability, both ways |
| `DnsChecks.DnsOutcomesMean` | app/services/dns_checks.py:85-168 | Ownership passes exactly when the TXT record shows the live claim's own value, routing exactly when its own target is reachable |
| `DnsChecks.OwnershipErrorsMean` | app/services/dns_checks.py:85-128 | Which error code ownership fails with: unreachable DNS, no record, a revoked claim's value, or another value |
| `DnsChecks.RoutingErrorsMean` | app/services/dns_checks.py:131-168 | Which error code routing fails with: unreachable DNS, no CNAME, or a chain that misses the target |
| `DomainRecord.DomainRecord.FindActiveClaim` | app/models/domain.py:94-96 | Finds the first claim that is not revoked |
| `DomainRecord.DomainRecord.RecordEvent` | app/services/domains.py:732-766 | Appends the event with the caller's clock pushed past the latest one |
| `DomainRecord.DomainRecord.IssueClaim` | app/services/domains.py:193-214 | Adds a pending claim and its event, leaving the rest of the row as it was |
| `DomainRecord.DomainRecord.RevokeLiveClaim` | app/services/domains.py:309-326 | Revokes the live claim, if there is one, and records it |
| `DomainRecord.DomainRecord.MarkClaimVerified` | app/services/domains.py:278-300 | Verifies the live claim or refuses without one or on a tombstone |
| `DomainRecord.DomainRecord.TransitionStatus` | app/services/domains.py:527-565 | Moves along the allowed transitions only, to ready only with a verified claim and passing checks, else raises |
| `DomainRecord.DomainRecord.RecordCheck` | app/services/domains.py:471-524 | Stores the check and its event; a failing check takes a ready domain to attention_required |
| `DomainRecord.DomainRecord.Reissue` | app/services/domains.py:217-249 | Revokes, resets the four checks in turn, falls back to pending_dns and issues a fresh claim, as one specified change of the row |
| `DomainRecord.DomainRecord.Delete` | app/services/domains.py:567-592 | Tombstones the row, revokes its claim and records both; a second deletion changes nothing |
| `DomainRecord.DomainRecord.ApplyDnsOutcomes` | app/services/dns_checks.py:192-256 | The assignments of the DNS transaction make of the row what `PassRules.DnsPassRule` and `PassRules.DnsPassStores` give |
| `DomainRecord.DomainRecord.ApplyEdgeOutcomes` | app/services/edge_checks.py:282-318 | The assignments of the edge transaction make of the row what `PassRules.EdgePassRule` and `PassRules.EdgePassStores` give |
| `Domains.MovesAre` | app/services/domains.py:77-116 | The table of transitions: every change of status is allowed but those out of a deletion, to ready past provisioning, from ready back to provisioning, and from suspended to attention required |
| `WorkerTransactions.LeaseDomain` | app/dns/worker.py:82-102 | The loop leases exactly the checks wanted that are due, or with force those that exist, and reports whether there was one |
| `WorkerTransactions.FinishDnsPass` | app/dns/worker.py:175-207 | The transaction after the queries is the atomic step of the protocol: discard and make due under another claim version, else apply, and claim the edge checks after a status change |
| `WorkerTransactions.FinishEdgePass` | app/dns/worker.py:215-238 | The transaction after the probes applies only to the claim version they were made for and only while it is eligible |
| `Lifecycle.RecordAppends` | app/services/domains.py:732-766 | Recording keeps the log strictly increasing and folds one event further |
| `Lifecycle.MarkClaimVerifiedKeeps` | app/services/domains.py:278-300 | Verifying succeeds on every live row, changes only the last claim and keeps the log in step |
| `Lifecycle.RevokeKeeps` | app/services/domains.py:309-326 | Revoking leaves every claim revoked and the log in step |
| `Lifecycle.NewRowInv` | app/services/domains.py:155-190 | A fresh registration satisfies the row invariant |
| `Lifecycle.ImportKeeps` | app/legacy.py:147-166 | A legacy import of a fresh row never raises and keeps the invariant; grandfathered it is provisioning with a verified claim |
| `Lifecycle.DnsRulesKeep` | app/services/dns_checks.py:228-256 | No status call of the DNS rules is refused and the invariant holds afterwards; the claim is verified exactly when both checks pass and it was pending |
| `Lifecycle.ApplyDnsKeeps` | app/services/dns_checks.py:192-256 | The same for the whole DNS transaction, with every stored check named |
| `Lifecycle.ApplyEdgeKeeps` | app/services/edge_checks.py:282-318 | The edge transaction is never refused while the domain may have a certificate, and keeps the invariant; what it leads to is `PassRules.EdgePassRule` |
| `PassRules.StampedAt` | app/services/domains.py:732-750 | An event is later than every earlier one: at the caller's clock, or a microsecond after the latest if the clock is behind |
| `PassRules.DnsPassRule` | app/services/dns_checks.py:223-256 | The status a DNS pass leads to from every status and every pair of outcomes, and exactly the events it records, with their reasons |
| `PassRules.EdgePassRule` | app/services/edge_checks.py:303-318 | After an edge pass the domain is ready exactly when both probes and both DNS checks pass; it then records the change, as a passed readiness probe from provisioning and as a recovery from attention required, and a ready domain with a failing probe needs attention |
| `PassRules.DnsPassStores` | app/services/dns_checks.py:178-220 | What a DNS pass stores of a check: how many failures in a row, since when, and when it is due again: 1, 2, 5, 15, 30 and then every 60 minutes after a failure, 30 seconds in the half hour after a Domain Connect link, six hours after a pass |
| `PassRules.EdgePassStores` | app/services/edge_checks.py:296-305 | The same for the certificate and origin checks |
| `Progress.CurrentPassIsApplied` | app/dns/worker.py:161-207 | In every reachable state the results of a pass over the claim that is still live are applied, with the status and the stored checks those rules give |
| `Progress.CurrentProbeIsApplied` | app/dns/worker.py:213-238 | The same for the results of a probe while the domain may have a certificate |
| `Progress.LeaseLasts` | app/dns/worker.py:82-102 | A leased check is due for nobody until two minutes later, and no other check is touched |
| `Progress.DueAtOnce` | app/services/domains.py:217-249 | Every check is due at once after a re-issue or a granted recheck |
| `Progress.RecheckRule` | app/services/domains.py:595-660 | When a recheck is granted or refused; the wait that is told is enough and not a second too long |
| `Progress.WaitingBecomesReady` | app/dns/worker.py:112-240 | From every reachable state in which a live domain waits for DNS or is suspended and its DNS checks are due, one undisturbed worker makes it ready if the records are there and the probes pass |
| `Progress.RegisteredBecomesReady` | app/dns/worker.py:112-240 | So every registered domain is one undisturbed run away from ready |
| `Lifecycle.ReissueKeeps` | app/services/domains.py:217-249 | Re-issuing succeeds on every live row, leaves one fresh pending claim, resets every check and keeps a suspension |
| `Lifecycle.DeleteKeeps` | app/services/domains.py:567-592 | Deleting leaves a tombstone without a live claim that still satisfies the invariant |
| `Lifecycle.RecheckKeeps` | app/services/domains.py:595-625 | A recheck makes every check due and changes nothing else |
| `Interleaving.StepInv` | app/dns/worker.py:112-240 | Every transaction of any worker and every API call keeps the whole invariant |
| `Interleaving.RunInv` | app/dns/worker.py:112-240 | The invariant holds after every run of every registered or imported domain |
| `Interleaving.ApplyPassKeeps` | app/dns/worker.py:185-219 | A pass whose claim version still matches is applied without a refusal and keeps the history in step with the row |
| `DomainGuarantees.ChecksSpeakForTheLiveClaim` | app/dns/worker.py:161-237 | Under every interleaving each check of a live domain that is not pending holds what a worker saw that had read today's live claim before its queries or probes |
| `Observations.StoredResultsAreWhatDnsShowed` | app/services/dns_checks.py:85-168 | In every reachable state a stored ownership or routing result that is not pending passes exactly if DNS then showed the live claim's own token, or led to its own target; a grandfathered import aside |
| `DomainGuarantees.VerifiedClaimsAreGenuine` | app/services/dns_checks.py:228-231 | A claim verified by DNS was verified by one pass that saw that claim's own TXT value and a chain through its own target; legacy import is the only exception |
| `DomainGuarantees.StatusAgreesWithChecks` | app/services/domains.py:514-548 | In every reachable state the status follows from the claim and the four checks |
| `DomainGuarantees.NoStatusCallIsRefused` | app/services/domains.py:535-548 | No status call a worker or a re-issue makes from a reachable state raises |
| `DomainGuarantees.EventLogReproducesTheRow` | app/services/domains.py:732-766 | Folding the event log gives the status, each check's status and error and the live claim; timestamps are strictly increasing |
| `DomainGuarantees.FailureCountsAreTheFailingSuffix` | app/services/dns_checks.py:178-189 | attempts and failing_since are the length and first time of the failing suffix of the observations since the last pass or re-issue, each made by a worker that had read the live claim |
| `DomainGuarantees.SuspensionRule` | app/services/dns_checks.py:245-255 | A pass leaves a domain suspended exactly when it was and DNS still fails, or it needed attention, ownership fails and the grace period is over |
| `DomainGuarantees.OnlyPassesSuspend` | app/services/dns_checks.py:245-255 | No other step of the system suspends a domain |
| `DomainGuarantees.SuspendedOnlyAfterADayOfFailures` | app/services/dns_checks.py:245-255 | A domain is suspended only after uninterrupted failing ownership observations, made by workers that had read the one verified claim, spanning at least 24 hours |
| `DomainGuarantees.OvertakenPassIsDiscarded` | app/dns/worker.py:175-188 | DNS results that a re-issue overtook change no status, claim or check result |
| `DomainGuarantees.OvertakenProbeIsDiscarded` | app/dns/worker.py:217-235 | Certificate and origin results that a re-issue overtook leave the whole row and the history as they are |
| `DomainGuarantees.DeletedIsFinal` | app/services/domains.py:567-592 | After a deletion only due times ever change, whatever workers still finish |
| `EdgeConfig.RouteGroups` | app/edge/config.py:100-158 | The loop builds the groups of all active applications with a serving origin that resolves and routable hostnames, in order |
| `EdgeConfig.CollectPortalHosts` | app/edge/config.py:281-301 | The loops collect every edge name once, sorted |
| `EdgeConfig.CompileApps` | app/edge/config.py:453-471 | The step-by-step compiler produces the subtree whose application routes `Compiled.RoutedIsCompiled` and `Compiled.CompiledIsRouted` give, between the fixed ones |
| `Shapes.GroupRouteSays` | app/edge/config.py:211-278 | A compiled route, field by field: its name and hostnames, one rate limit zone per limit that is set and not zero with that limit's own number and window, the two fixed steps, and the proxy with its address, TLS name and Host |
| `Compiled.RoutedIsCompiled` | app/edge/config.py:100-158 | Every active application with an active verified origin that resolves and a hostname past its DNS proof has such a route, listing exactly those hostnames, under its own limits, to the least resolved address |
| `Compiled.CompiledIsRouted` | app/edge/config.py:100-158 | And every other route of the compiled configuration is one of the edge's own |
| `Compiled.DialReadsBack` | app/services/origin_verification.py:273-297 | The address and port of either family are read back from the dialled text |
| `Compiled.PortalHostsAre` | app/edge/config.py:281-301 | The edge's own names are exactly its hostname, the active applications' targets and the targets of live claims, each once and in order |
| `Gateway.ValidateHosts` | app/edge/gateway.py:199-210 | The loop with its growing set accepts exactly the canonical hostnames not listed before |
| `Gateway.ValidateAppRoute` | app/edge/gateway.py:183-267 | Accepts exactly the specified route shape with fresh canonical hostnames |
| `Gateway.ValidateApps` | app/edge/gateway.py:65-162 | Accepts exactly the configurations of the reconciler's shape, whose parts `Shapes` reads field by field |
| `Gateway.AcceptedHosts` | app/edge/gateway.py:199-210 | Accepted hostnames are canonical and pairwise different |
| `Gateway.HostsListedOnce` | app/edge/gateway.py:199-210 | No hostname is listed by two routes of an accepted configuration |
| `Shapes.AcceptedTls` | app/edge/gateway.py:155-180 | Read field by field, any accepted configuration has no TLS part without HTTPS, and otherwise one policy, on demand, permitted by the ask endpoint and issued by the configured issuer alone |
| `Shapes.AcceptedHttp` | app/edge/gateway.py:65-110 | Its server listens on the HTTPS port alone and insists on the SNI name, or has HTTPS off; other ports and metrics are as set |
| `Shapes.AcceptedLimits` | app/edge/gateway.py:270-295 | Its routes limit only their own requests, in a minute or a second, to at most a million |
| `InternalApi.EdgeOrigins` | app/v1/internal.py:162-204 | The loop offers every address of every active, verified origin, sorted, and states the names and allowlists |
| `InternalApi.UpstreamIsGreatest` | app/v1/internal.py:182-196 | An address is listed exactly when some origin offers it, and then under the greatest name offering it |
| `Compiled.UpstreamsAre` | app/v1/internal.py:162-204 | The facts list exactly the addresses that active verified origins of active applications resolve to, each under the greatest such name |
| `EdgeChecks.EdgeOutcomesMean` | app/services/edge_checks.py:170-279 | Interface lemma: the certificate check passes exactly when HTTPS is off or this edge answered with a certificate valid for a week or a third of its lifetime; the origin check exactly when there is an origin and, if probed, it answered with the domain's own reference and application |
| `EdgeChecks.EdgeErrorsMean` | app/services/edge_checks.py:170-279 | Which error code each probe fails with |
| `InternalApi.AllowedExactly` | app/v1/internal.py:89-159 | Interface lemma: a request is allowed exactly when it is trusted, a key exists, host and SNI name one valid hostname, and its live row is serveable, or routable on the workspace path, with a serving origin |
| `InternalApi.RefusalsAre` | app/v1/internal.py:89-159 | A refused request is answered 503 while the API knows the edge but has no key, and 403 in every other case |
| `InternalApi.HostNameIs` | app/v1/internal.py:109-110 | A port is taken off a name, and an IPv6 address keeps its colons |
| `OwnOrigin.AllowedRequestsReachTheirOrigin` | app/edge/config.py:260-278 | Under an accepted current configuration every allowed request on a routable hostname whose origin resolves, within the rate limit and outside the fixed routes, reaches that origin |
| `Compiled.AllowedRequestsAreServed` | app/edge/config.py:100-158 | The same in plain conditions: a request the API allows for a listed hostname reaches its owner's pinned address, unless it is on the health path, on a management path of an edge name, or over a limit |
| `Compiled.ReservedAre` | app/edge/config.py:75-83 | The seven headers a client cannot forge |
| `Serving.AskStepDecides` | app/edge/config.py:161-203 | The assertion subrequest stops the request or adds the assertion just made for it and changes nothing else |
| `Serving.AppRouteSettles` | app/edge/gateway.py:183-267 | A matching accepted route answers, or forwards to its own dial with the reserved headers stripped and a current assertion |
| `Serving.OnlyAssertedRequestsReachOrigins` | app/v1/internal.py:89-159 | For any accepted configuration, however stale, a request reaches an origin only with the reserved headers stripped and an assertion made now about the live row of its host, serveable, or routable on the workspace path |
| `Serving.DeletedIsNotServed` | app/v1/internal.py:124-138 | A host without a live row never reaches an origin on its next request, whatever configuration is running |
| `Compiled.EdgeAnswers` | app/edge/config.py:410-432 | Under any accepted configuration the health path is answered 204 before anything else, and what no route wants is answered 404 |
| `Management.ManagementIsReached` | app/edge/config.py:304-407 | Under the compiled configuration, on the edge's own names: the portal and operator paths reach the management API from their allowlists and are refused with 403 from anywhere else, and the public API reaches it without the reserved headers |
| `Agreement.RouteAccepted` | app/edge/gateway.py:183-267 | A compiled application route is accepted exactly when its address is offered the way the route uses it |
| `Agreement.BuiltIsAccepted` | app/edge/gateway.py:65-162 | Whatever the facts, a compiled configuration is accepted exactly when every group's address is so offered |
| `Agreement.CompilerAndValidatorAgree` | app/edge/config.py:453-471 | For every database state and settings the validator accepts the compiled configuration exactly when no routed address is offered under a greater origin name, plain HTTP with the customer's hostname aside |
| `EndToEnd.RegisteredDatabasesAgree` | app/operator/schemas.py:41-51 | The same exact condition for every database that registrations, imports and other changes lead to, with limits in the range the operator API accepts |
| `Agreement.DistinctAddressesAreAccepted` | app/edge/config.py:453-471 | It is always accepted when origins of different names share no address |
| `Agreement.SharedAddressIsRefused` | app/edge/config.py:131-158 | Two active applications whose verified HTTPS origins resolve to one address, the first name routed: a database that registrations allow and whose configuration is refused |
| `Agreement.SharedAddressCounterexample` | app/edge/config.py:131-158 | Such a database exists under any settings, with an imported hostname |
| `Agreement.PinnedIsFirst` | app/services/origin_verification.py:273-297 | The pinned address is one of those resolved, IPv4 first and then the lowest |
| `Agreement.PinnedIgnoresOrder` | app/services/origin_verification.py:273-297 | The order of the resolver's answer does not change the pinned address |
| `OwnOrigin.CurrentConfigurationServesTheOwner` | app/edge/config.py:100-158 | Under the current configuration a forwarded request goes to the pinned address of the serving origin of the application that owns its host |
| `EndToEnd.OwnerAcceptsTheToken` | sdk/custom_domain/assertion.py:45-102 | The token forwarded under the current configuration is accepted by the owner's origin exactly while its clock is in the window and the signer's key id has no dot |
| `ServedDomains.ReadyIsServeable` | app/services/domains.py:442-457 | For every reachable row serveable means ready with an active owner, and serveable implies routable |
| `ServedDomains.OriginsOnlySeeProvenDomains` | app/v1/internal.py:89-159 | An origin only sees requests for live domains whose claim was verified by DNS that showed it, or imported |
| `ServedDomains.LifecycleEvolves` | app/dns/worker.py:112-240 | Every lifecycle step keeps a row's name, owner and tombstone, as the registry's invariant needs |
| `Reconcile.Reconciler.Apply` | app/edge/reconcile.py:138-167 | Reads, compares, writes: the outcome and the running configuration in every case, error cases included |
| `Reconcile.Reconciler.RunOnce` | app/edge/reconcile.py:71-116 | A run that fails leaves the running configuration, one that succeeds leaves the desired one, and the outcome is kept |
| `Reconcile.LockTable.Acquire` | app/edge/lock.py:26-45 | Interface: what the lock row says afterwards, whether it existed, was created or was created by another transaction in between; the waiting is the database's |
| `Reconcile.BuiltIsFrom` | app/edge/config.py:100-158 | A compiled configuration lists only hostnames routable in the state it was built from |
| `Reconcile.WritesFollowTheDatabase` | app/edge/lock.py:3-8 | With any number of reconcilers configurations are written in the order of the database states they were built from, one run at a time |
| `Reconcile.DeletedIsUnlisted` | app/edge/lock.py:48-56 | Once a run that took the lock after a deletion succeeded, neither the running configuration nor any later write lists the hostname unless it is registered again |
| `Reconcile.OnlySuccessChangesCaddy` | app/edge/reconcile.py:93-116 | Restarts of Caddy aside, the running configuration changes only by a write the gateway accepted from the run that holds the lock |
| `Reconcile.BootstrapListsNothing` | app/edge/config.py:493-505 | What Caddy starts with lists no hostname of any application |
| `Webhooks.EnqueueForEvent` | app/services/webhooks.py:245-277 | The loop queues the deliveries that `Notifications.NotifiedExactly` gives, one for each subscription |
| `Webhooks.ExactlyOneEach` | app/services/webhooks.py:245-277 | Never two deliveries of one event for a subscription: one if it is active and wants the type, none for any other |
| `Notifications.NotifiedExactly` | app/services/webhooks.py:55-67 | Over the event log of any run: an event queues for an active subscription of the application a ready, recovered, attention required or deleted notification exactly when it moves the domain from provisioning to ready, from attention required to ready, to attention required, or deletes it; each names the event, is due at its timestamp and has no attempts |
| `Notifications.RegistrationIsQuiet` | app/services/webhooks.py:55-67 | The first event of a domain notifies nobody |
| `Webhooks.DeliveryRecord.Lease` | app/webhooks/worker.py:69-78 | Leases a delivery exactly when it is pending and due |
| `Webhooks.DeliveryRecord.Abandon` | app/webhooks/worker.py:144-148 | Under a revoked subscription marks the delivery abandoned and changes nothing else, delivered or not |
| `Webhooks.DeliveryRecord.Finish` | app/webhooks/worker.py:167-184 | Writes the outcome of an attempt over the count that was loaded |
| `Webhooks.DeliveryRecord.Replay` | app/services/webhooks.py:303-326 | Makes the delivery pending, due and unattempted |
| `Webhooks.ReplaySince` | app/services/webhooks.py:329-352 | Replays every delivery it is given and changes no other |
| `Webhooks.PendingIsNeverLost` | app/webhooks/worker.py:123-188 | Under every interleaving of workers, lapsed leases, deaths and replays a delivery neither delivered nor abandoned has a next attempt |
| `Webhooks.TimelyDeliveries` | app/webhooks/worker.py:136-184 | When attempts end within their lease and no replay lands during one, at most eight attempts finish, never both delivered and abandoned, and abandonment has a reason |
| `Webhooks.AttemptsFollowTheSchedule` | app/webhooks/worker.py:165-188 | Then the first to eighth attempts end as the schedule has it: delivered, due again 1, 5, 30, 120, 720 and then 1440 minutes after their start, or given up with the eighth |
| `DeliveryRuns.BothMarksStep` | app/webhooks/worker.py:136-184 | A step leaves a delivery both delivered and abandoned exactly when it writes one mark over a row that has the other: a success on an abandoned row, a last failure or a revoked subscription on a delivered one |
| `DeliveryRuns.BothMarksExactly` | app/webhooks/worker.py:136-184 | Over every run a delivery is both exactly when, since the last replay, two attempts were under way at once, one settled it one way and the other then the other way |
| `DeliveryRuns.OneAttemptAtATime` | app/webhooks/worker.py:69-75 | A delivery that never has two attempts under way at once is never both |
| `DeliveryRuns.ReplayLostExactly` | app/services/webhooks.py:319-326 | In any state, a replay can be settled without an attempt that loads it afterwards exactly when an attempt that had loaded the row before is still under way |
| `DeliveryRuns.LapsedLeaseCounterexample` | app/webhooks/worker.py:165-184 | Queued, failed seven times, and then an eighth attempt that outlives its lease: both delivered and abandoned |
| `DeliveryRuns.RevokedAfterDeliveryCounterexample` | app/webhooks/worker.py:136-148 | A second worker that took over a lapsed lease finds the subscription revoked and abandons what the first has delivered |
| `DeliveryRuns.ReplayInFlightCounterexample` | app/webhooks/worker.py:165-184 | A replay during an attempt is lost: delivered, with nothing sent for it |
| `Webhooks.SettlingKeepsPending` | app/webhooks/worker.py:221-259 | Settling revokes exactly the subscriptions of deleted applications without a pending delivery |
| `Settling.StrandedExactly` | app/webhooks/worker.py:221-259 | Of queueing, attempts, replays and settling, only a replay after the revocation can leave a delivery pending under a revoked subscription |
| `Settling.SettlingAbandonsNothing` | app/services/applications.py:191-192 | Where only settling revokes and no replay comes after it, a pending delivery is abandoned by nothing but an attempt that had seven behind it |
| `Settling.LateReplayIsGivenUp` | app/services/webhooks.py:303-326 | A replay under a revoked subscription is accepted and given up unsent by the worker that takes it |
| `Consumer.Consumer.Handle` | examples/webhook_consumer.py:31-47 | Applies, ignores or remembers a notification as specified; an unsigned one changes nothing |
| `Consumer.Converges` | examples/webhook_consumer.py:31-47 | After any deliveries, reordered and repeated, the state of each domain is the payload of its newest delivered event |
| `Consumer.OrderDoesNotMatter` | examples/webhook_consumer.py:31-47 | The same notifications in any two orders give the same state |
| `Consumer.EqualTimestampsCounterexample` | examples/webhook_consumer.py:42-47 | With equal timestamps the order of arrival would decide |
| `Consumer.ConsumerEndsWithTheLastEvent` | app/services/domains.py:740-750 | For the event log of any run of a domain the consumer ends with the snapshot of the last event delivered |
| `Traffic.TrafficBooks.Normalize` | app/services/traffic.py:57-61 | The comprehension builds the specified readings |
| `Traffic.NormalizedAre` | app/services/traffic.py:57-61 | Each host has one reading: the last one reported of it in any case, not below zero, and none for the shared label |
| `Traffic.TrafficBooks.ReadTotals` | app/services/traffic.py:62-87 | The loop turns the readings into the baselines and increases that `Traffic.BaselineAfter`, `Traffic.IncreasesAreTheOwnersSums` and, host by host, `Metering.ReadingsAreCredited` give |
| `Traffic.TrafficBooks.AddToDays` | app/services/traffic.py:88-102 | The loop adds each increase to its application's row of today and to nothing else |
| `Traffic.TrafficBooks.RecordTotals` | app/services/traffic.py:45-111 | One reading: new baselines, grown and expired rows, number of applications changed |
| `Traffic.TrafficBooks.ResetBaselines` | app/services/traffic.py:114-117 | Every baseline is zero and no other field changes |
| `Traffic.IncreasesAreTheOwnersSums` | app/services/traffic.py:69-87 | An application's increase is the sum over the hostnames it owns |
| `Traffic.DaysGrowByTheIncrease` | app/services/traffic.py:88-110 | Today's row grows by exactly that sum and no other kept day changes |
| `Traffic.BaselineAfter` | app/services/traffic.py:69-82 | A listed host gets its reading as baseline, any other keeps its own |
| `Traffic.IncreasedApplications` | app/services/traffic.py:83-111 | The applications whose day changes, which the result counts, are exactly those whose sum is not nothing |
| `Traffic.OldRowsGo` | app/services/traffic.py:103-110 | Baselines not read for thirty days and day rows 400 days old go, and no other |
| `Metering.NeverOvercounts` | app/edge/reconcile.py:109-116 | For every host and any mix of requests, readings, restarts, configuration changes, failed savepoints and rolled back runs, recorded requests and bytes never exceed those served |
| `Metering.EverythingIsAccountedFor` | app/services/traffic.py:62-87 | Over every run, restarts, failed savepoints, rolled back transactions and owners that come and go included, what is recorded, what is lost and what is still to be read add up to what was served |
| `Metering.ReadingsAreCredited` | app/services/traffic.py:74-82 | In any run, recording a reading of an owned host adds its growth since the baseline, or all of it when it is below the baseline in requests or bytes; a restart the counter has already outgrown loses exactly the baseline |
| `Metering.OnlyRestartsLose` | app/services/traffic.py:15-19 | Recording and committing aside, only a restart or a new configuration loses anything: what was served since the last reading or baseline |
| `Totals.RecordingAddsAtMost` | app/services/traffic.py:88-110 | One recording adds to all day rows together at most the increases of all applications together |
| `MeteredEdge.RecordedAtMostServed` | app/edge/reconcile.py:109-136 | Over any run of the whole edge, all day rows of all applications together never exceed what was served on all hostnames together |
| `MeteredEdge.HostSteps` | app/services/traffic.py:63-117 | The counter table is, row by row, the baseline in each hostname's own machine, through readings, expiry, resets and rollbacks |
| `Throttle.FailedAuthLimiter.RetryAfter` | app/v1/throttle.py:91-102 | The loop returns the longest wait of the client's buckets |
| `Throttle.FailedAuthLimiter.RecordFailure` | app/v1/throttle.py:104-115 | The loops move each bucket to the end with its truncated list and evict from the front |
| `Throttle.MapStaysBounded` | app/v1/throttle.py:104-115 | The map never exceeds its bound, holds each bucket once and stays ordered by last failure |
| `Throttle.DecidesLikeTheFullLimiter` | app/v1/throttle.py:91-115 | With a monotone clock and no eviction the decisions are those of the limiter that keeps every failure; evictions only let more through |
| `Throttle.WaitingSuffices` | app/v1/throttle.py:91-102 | Waiting the returned seconds without a new failure always unblocks |
| `Clients.ClientsWaitExactly` | app/v1/throttle.py:53-115 | Counted over the failures themselves: a client waits exactly when it failed its limit of times in the last minute, or its IPv6 site ten times as often, where clients share their first 64 and sites their first 48 bits; evictions only let more through |
| `Clients.NoShorterWait` | app/v1/throttle.py:91-102 | Nobody is told a second too long: until the last second of the wait the client would still be refused |
| `Throttle.UntruncatedWaitCounterexample` | app/v1/throttle.py:104-125 | Over all failures the same formula would return too short a wait |
| `Throttle.CredentialRateLimiter.Take` | app/v1/throttle.py:152-164 | Accepts or refuses and stores exactly the specified times |
| `Throttle.AtMostPerMinute` | app/v1/throttle.py:122-131 | In every half-open minute of any run at most per_minute requests of a credential go ahead |
| `Throttle.RefusedOnlyWhenFull` | app/v1/throttle.py:152-164 | A request is refused only when exactly per_minute lie in the last minute, and the wait it is told is enough |
| `Clients.NoShorterRefusal` | app/v1/throttle.py:152-164 | And not a second too long |
| `AssertionToken.Base64RoundTrip` | app/edge/assertion.py:60-66 | Decoding the unpadded base64url text of any byte string gives it back |
| `AssertionToken.OpenSigned` | app/edge/assertion.py:89-151 | A signed token opens to exactly what was signed when the key id has no dot, and is malformed when it has one |
| `AssertionToken.SignedVerifies` | app/edge/assertion.py:112-161 | A signed token is accepted exactly when the key id is dot-free, the clock is within the window and the expected values match |
| `AssertionToken.SignedIsRefusedFor` | app/edge/assertion.py:112-161 | Why a signed token is refused: a dotted key id, an unknown key, another key's secret, the clock, the application or the hostname |
| `AssertionToken.SignedVerifiesAtOrigin` | sdk/custom_domain/assertion.py:45-102 | The same for the verification the origins run, with its lower-cased hostname |
| `AssertionToken.AcceptedMeansSigned` | app/edge/assertion.py:112-161 | Whatever token is accepted carries a signature under a key the caller trusts and is within its window |
| `AssertionKeys.KeyRing.Issue` | app/services/assertion_keys.py:76-107 | Revokes every live key but the signer and adds the new one, or refuses the delay |
| `AssertionKeys.KeyRing.Revoke` | app/services/assertion_keys.py:110-124 | Revokes the named key once, or reports that there is none |
| `AssertionKeys.SigningKey` | app/services/assertion_keys.py:49-63 | The signer is live and active, and no active live key was activated later; none only when no key is active |
| `AssertionKeys.AtMostTwoLive` | app/services/assertion_keys.py:11-18 | Over any run of issuing and revoking at most two keys of an application are live |
| `AssertionKeys.KeyStatesAre` | app/services/assertion_keys.py:127-135 | Over any run exactly the signer is listed as signing, a previous key only beside a signer, and beside a signer at most one other key is not revoked |
| `AssertionKeys.IssuingHandsOver` | app/services/assertion_keys.py:76-107 | Issuing leaves the signer as it is until the delay has passed, and from then on the new key signs |
| `AssertionKeys.RevokingFallsBack` | app/services/assertion_keys.py:110-124 | Revoking another key changes no signer; revoking the signer falls back to the best of the rest, or to none |
| `Registry.Deployment.ClaimDomain` | app/services/domains.py:127-190 | The errors in the code's order, or one more row and event; nothing changes on an error |
| `Registry.Deployment.Enforce` | app/services/limits.py:97-123 | Reports exactly whether the application's or the deployment's limit is reached |
| `Registry.Deployment.ImportLegacyDomains` | app/legacy.py:91-169 | The loop imports, skips or recognises each entry in turn, or rolls everything back |
| `Registry.ClaimKeeps` | app/services/domains.py:150-174 | A successful claim adds one valid live row and leaves both live counts within their limits |
| `Admission.ClaimsGoThroughExactly` | app/services/domains.py:127-190 | A registration goes through exactly when the application is active, the reference and hostname are usable, fewer live rows than each limit allows and fewer than 120 registrations in the last hour are there, and no live row has the name; otherwise it gets the first of those errors, with the least sufficient wait |
| `Admission.ReferenceForIs` | app/legacy.py:127-132 | An entry's reference: the mapping's for its canonical name, else for the name as written, else the name itself if asked to; an empty one counts as none |
| `Admission.FatesAre` | app/legacy.py:116-169 | The fate of every entry of an import, by the same counts, and the errors that end one |
| `Registry.ImportOneKeeps` | app/legacy.py:116-168 | An imported entry leaves the counts within their limits; any other changes nothing |
| `Registry.OneLiveRowPerHostname` | app/models/domain.py:35-42 | Over all registrations, imports and other changes a hostname has at most one live row across applications, its name is canonical, and no application registers more than 120 domains in any hour |
| `Registry.ImportingAgainChangesNothing` | app/legacy.py:112-114 | Running the same import again changes nothing |
| `Origins.ActivateOrigin` | app/services/applications.py:587-604 | Activates a verified origin and turns every other off, or refuses and changes nothing |
| `Origins.ActivatingKeepsTheIndex` | app/services/applications.py:600-604 | Neither flush leaves two active origins, and afterwards exactly the chosen one is active |
| `Origins.ActiveIsVerified` | app/models/application.py:77-83 | Over any run at most one origin of an application is active, and it is verified |

## Left out

Assumptions of the model:

- Transactions are atomic, and reading one transaction's state sees one version. `reissue_claim` and `delete_domain` do not call `lock_application`; that their transactions do not interleave with a worker's is therefore an assumption, not something the code enforces.
- A worker's two DNS queries of one pass see one resolver; two passes may see different ones. All four check rows exist from registration on, as `claim_domain` creates them.
- A write to Caddy succeeds or fails as a whole, an applied configuration restarts Caddy's counters, and the reconcile lock is held until the run ends: the row lock behind `acquire_lock` is the database's, and `Reconcile.LockTable` models only what the row then says.
- What answers at the assertion upstream is the management API, and the edge and the API share their settings. How Caddy matches hosts, paths and addresses is arbitrary, except that a canonical name matches the hosts it is the canonical form of where a lemma says so.
- JSON text, IDNA with the public suffix list, HMAC and random tokens are abstract functions, with the round trip or idempotence the lemma requires; ids and secrets drawn at random are fresh.
- The limiters' clock does not go back. Timestamps are whole microseconds and the limiters' times are reals.

- Hostnames, addresses and route names never equal one of the configuration's own words, which are numbered constants here; none of those words is a canonical hostname or an address.

Not modelled:

- Python's equality of true with 1 and of 204.0 with 204 in JSON values, `int()` of numerals with signs, spaces or underscores, and Unicode white space in `strip` and letters in `lower`.
- A payload on which the gateway itself fails with a type error counts as not accepted; the reasons it gives for a rejection are not modelled.
- Human-readable messages and details of checks, events and errors, and a domain's metadata and zone.
- Caddy's `strict_sni_host` and automatic HTTPS, which only refuse more; wildcard patterns do not occur in canonical names.
- The budget of rechecks per application and the half hour after a Domain Connect link are parameters of the calls that read them.
- `run_due_checks`, `run_forever`, `deliver_due` and the batch loops around single passes: each is any sequence of the steps modelled.
- `purge_tombstones` and the retention of old events; a purge removes only rows that no invariant here counts as live.
- Certificate storage, the TLS ask endpoint, the portal, the operator API, presenters, the CLI, backup, the SDK's HTTP client and the legacy Caddy writer.
- The inline `run_dns_checks` and `run_edge_checks` of the CLI and the uncalled `revoke_claim`, which bypass the versioned protocol.
- `create_subscription`, URL validation, secret rotation and header signing of webhooks, credentials, and Domain Connect: validation and cryptography that no modelled property depends on.
- `resolve` and `_dial_order`: an origin's addresses are a list with version and numeric value; a name that does not resolve acceptably has none.
- `parse_legacy_config` and `_first_upstream`: an import starts from its list of hostnames.
- Deleting an application is a series of the deletions and origin changes modelled.
- OnlyAssertedRequestsReachOrigins: does not say whose origin it is, because a stale configuration may send a hostname to its former owner's origin, with an assertion naming the new owner; for a current configuration `OwnOrigin.CurrentConfigurationServesTheOwner` says it.
- TimelyDeliveries: gives a sufficient condition in terms of times; the exact ones are `DeliveryRuns.BothMarksExactly` and `DeliveryRuns.ReplayLostExactly`. It counts attempts that finished, because the service does not count one whose process dies after sending either.
- NeverOvercounts: follows one hostname, credited to whoever owns it at the reading; `MeteredEdge.RecordedAtMostServed` adds the hostnames and the day rows up.
- Ties of `created_at` between assertion keys with one activation time are broken by the order of creation.
