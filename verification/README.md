# Sessions and traffic accounting of a VLESS node

This project models the two state machines at the centre of the node service, and proves what they keep
over every run.

**Sessions.** The session registry (`internal/session/registry.go`) admits, migrates, limits and revokes
client sessions. `SessionTable` gives each critical section as a function on the table of leases and the
source counts kept beside it; `SessionSafety` proves what every run of those functions keeps, in any
interleaving, with any number of steps between the two critical sections of `Open`. `Ledger` ties the
counts (`sources`, `userTCP`, `userXUDP`, `tcp`, `xudp`) to the table and says exactly which steps keep the
source counts right; `SessionConnectors` derives the connector limits from that, and `SessionExamples`
gives concrete runs where they fail. `SessionAdmission` says exactly what Open and Rebind accept, refuse and leave
behind, `SessionInterrupts` exactly when the callback of a lease runs, and `SessionRevocation` exactly which leases
an update, a revocation or a close takes, field by field. The class `Registry` is the object itself: each of its methods is
proved, for every state, to produce exactly the table and the source counts of `SessionTable`, with the
counts per kind always those recomputed from the table.

**Accounting.** Traffic goes from volatile counters through drained entries and a durable outbox into a
transactional database. `EngineState`, `Accounting`, `Outbox` and `Database` model the parts; `XrayEngine`
(with `UserSync`), `Outbox.Store` and `Database.Database` are the objects that change in place. `Pipeline` is
the protocol as a step relation with every failure: saves that fail before or after the rename, commits
whose reply is lost, removals that fail, crashes, power losses, negative counters. `PipelineSafety` proves
conservation, ordering and coverage over every run; `PipelineLoss` gives the exact loss of every step and
run. `OutboxView` ties the directory to the protocol's view of it, step by step, and `OutboxRuns` derives the
order of replay from what `List` returns.

**The service loop** (`internal/lifecycle/run.go`). `Serving` and `Operations` say what the operations of the loop
achieve and lose, as facts about the protocol; `EngineSteps` and `Depot` are their calls on the engine and on
store and database. `Service` has the operations that keep the engine object (replay, persist, report,
shutdown), `Restarting` those that may replace it (reload, bootstrap). Each is proved to be a run of the
protocol with an exact account of what it can lose, and to succeed when nothing stands against it.
`Courses` describes what the turns of the loop and the lives of processes bring about, and `Lifecycle` is the
loop, whole processes and processes one after the other. The class `Runtime` is the object the service keeps
all this in.

Policies are in `PortRules` and `IpRules`, the target check in `Target`. `Text`, `Wrappers` and `Model` hold the
shared vocabulary.

`dafny verify dfyconfig.toml` checks the whole project.

## How the code is represented

- A lease object is a record, kept under its id in `sessions` while it is in the registry's table and in
  `detached` after its `Close`, because holders may still call it. Fields `port`, `candidates`, `pinned`,
  `credential`, `binds` and `handed` of a lease are history; `credential` is the UUID its user had when the lease
  was admitted, not the one a client that was slow to get there had been let in with.
- The source counts are part of the table's state, because they can come to differ from the leases;
  the counts per kind cannot, and are recomputed in the specification.
- A limiter is a bucket named by its owner and the installation that created it, so equal buckets are the
  same object.
- Iterating a Go map is an arbitrary choice of the next element; no result depends on it.
- A mutex-protected section is one step. Between two sections, anything may happen.
- What clients do (calls on the session registry, and traffic) is an argument for each gap between two calls:
  `env` inside an operation, `wait` before each turn of the loop and before the end of the process. Failures,
  identifiers and save times are arguments too. Traffic accrues only for users with an open lease on a
  running engine.
- An operation takes the state of the protocol it starts from as a ghost argument and returns the one it
  ends in. Operations that may replace the engine return the engine in place afterwards; `Runtime` stores it.
- Xray's configuration is the part that comes from the node's settings (`Model.Inbound`); the public key stands for
  the private one it must belong to, and listen address and routing are constants.
- Traffic is followed by key: user, direction and rate. Conservation per key is what freezes the rate:
  bytes counted under one rate cannot turn up in a batch with another.
- Save times strictly increase and are int64, and batch identifiers are new, as the clock and the random
  identifiers are taken to provide.
- Integers are unbounded; int64 wrap-around is written out where the code relies on it or guards against
  it (counters, totals, validation).
- "Bounded" production is fewer than 2^63 bytes per user, direction and rate. Then no counter wraps.

## Results worth knowing

- **An update can panic, and takes the process with it.** `enforceConnectorsLocked` decides with the listed
  sources, which include those of revoked leases, but slices a list that does not
  (`internal/session/registry.go:415` and `:439`). `Registry.UpdateSnapshot` panics exactly when some user has
  more listed sources than its new limit and fewer than that limit still live
  (`SessionTable.UpdatePanics`). `SessionConnectors.LoweringOwnLimitPanics` gives the everyday case: lowering
  one user's own limit below the sources it has open. Nothing recovers from the panic, so an incremental
  reload then loses what has been counted since its drain (`Restarting.ReloadUsers`), and the process ends
  without a shutdown (`Lifecycle.Live`).
- **Rebind has no guard for a closed lease** (`internal/session/registry.go:493-522`). Exact source counts stay
  exact if and only if no closed lease moves (`Ledger.StepExactIff`). When one does, a user can be admitted
  from more sources than its limit (`SessionExamples.LimitCanBeOverrun`), and an update can panic without a
  single lease in the table (`SessionExamples.EmptyTableCanPanic`). The connector limits are proved for runs
  in which no closed lease moves, and for every state there is the exact condition under which they hold.
- **Short IPv4-mapped prefixes vanish.** An IPv4-mapped prefix shorter than 96 bits becomes a rule that
  matches nothing (`internal/policy/policy.go:17-24`). `IpRules.MeaningKeptIff` shows these are exactly the
  rules whose meaning is not kept, and `IpRules.ShortMappedExample` names one.
- **What a reload can lose.** A full restart loses everything counted when closing the old engine fails
  after its drain, although shutdown under the same error still saves it; and it loses what has no counter
  on the engine that is started again after a failed save (`Restarting.Restart`).

## Model

| member | source | states |
|---|---|---|
| `SessionSafety.EveryRunSafe` | internal/session/registry.go:79-577 | in every state of every run from a new registry, moves of closed leases included: each live lease belongs to an authorised user whose current policy allows its source, port and all its candidates and whose UUID is still that of its admission; it draws from the one current bucket of its user and of the node; every count per kind is within its limit; interruption and sealing hold |
| `SessionSafety.StepSafe` | internal/session/registry.go:91-577 | every critical section, in any state the invariant allows, keeps the whole invariant |
| `SessionSafety.RunSafe` | internal/session/registry.go:115-183 | the invariant survives any sequence of steps, in particular any steps between the two critical sections of Open |
| `SessionSafety.OpenSafe` | internal/session/registry.go:143-183 | admission on a target check made under an older snapshot still yields only leases the current policy allows |
| `SessionSafety.RebindSafe` | internal/session/registry.go:485-523 | migration keeps the invariant, also for leases already closed |
| `SessionSafety.SurvivorStillAllowed` | internal/session/registry.go:253-280 | a lease that an update does not revoke is allowed by the new snapshot |
| `SessionSafety.RevisedSafe` | internal/session/registry.go:253-280 | after install and revocation no live lease is left on a replaced user or node limiter |
| `SessionSafety.InstalledBuckets` | internal/session/registry.go:365-383 | after any installation there is one bucket per user and one for the node, each of the current speed |
| `SessionSafety.UpdateSafe` | internal/session/registry.go:253-303 | an update that does not panic keeps the whole invariant |
| `SessionRevocation.SurvivesRevisionIff` | internal/session/registry.go:253-280 | a live lease survives the revocation of an update if and only if its user is in both snapshots with the same UUID, speed, connector limit, addresses and ports, the node's speed is the same, and its source is not newly disconnected |
| `SessionRevocation.SurvivesUpdateIff` | internal/session/registry.go:253-303 | it survives the whole update if and only if, besides, its user lists no more sources than the new limit or its source is among the oldest left |
| `SessionRevocation.UpdateKeepsRevoked` | internal/session/registry.go:385-392 | an update leaves leases already revoked as they are |
| `SessionRevocation.AffectedIff` | internal/session/registry.go:288-303 | the users an update reports: those that leave or change, those with a newly disconnected address, those whose newest sources are cut |
| `SessionRevocation.LosersAreAffected` | internal/session/registry.go:288-303 | every user that loses a lease by an update is reported |
| `SessionRevocation.RevokesExactly` | internal/session/registry.go:305-316 | RevokeUsers revokes every lease of these users, whatever its kind, and touches nothing else |
| `SessionRevocation.ShutRevokesAll` | internal/session/registry.go:318-330 | closing the registry leaves no live lease |
| `SessionRevocation.PolicyInForce` | internal/session/registry.go:365-383 | in every run users, node id, speed and connector limit are those of the last snapshot |
| `SessionRevocation.CredentialsCurrent` | internal/session/registry.go:625-629 | in every run each live lease was admitted under the UUID its user has in the last snapshot |
| `SessionSafety.InterruptedExactlyOnce` | internal/session/registry.go:385-400 | a revoked lease with one callback in force has had that callback handed out exactly once, whichever of bind and revoke came first |
| `SessionInterrupts.BoundOnce` | internal/session/registry.go:475-483 | in every run from a new registry in which one callback is bound to a lease once, with any steps before, between and after: it has been handed out exactly once if the lease is revoked, and not at all otherwise |
| `SessionInterrupts.NeverBound` | internal/session/registry.go:475-483 | without a bind nothing is ever handed out |
| `SessionInterrupts.RevocationReturns` | internal/session/registry.go:385-400 | the section that revokes such a lease returns its callback, and no other for it |
| `SessionInterrupts.LateBindReturns` | internal/session/registry.go:475-483 | a callback bound to a revoked lease is handed out at once, one bound to a live lease is not |
| `SessionInterrupts.StaysArmed` | internal/session/registry.go:385-400 | once bound, a callback stays in force through any steps that bind nothing else |
| `SessionSafety.ClosedForGood` | internal/session/registry.go:318-330 | after Close of the registry, in every continuation it stays closed, every lease in the table is revoked and no lease is added |
| `SessionSafety.InitialSafe` | internal/session/registry.go:79-89 | a new registry satisfies the invariant |
| `SessionConnectors.UpdateEnforcesLimit` | internal/session/registry.go:402-448 | with exact source counts, after an update each user with a positive limit has at most that many live sources, those kept are older than every one dropped, and nothing is dropped needlessly |
| `SessionConnectors.LimitAfterUpdateIff` | internal/session/registry.go:409-446 | in every state, a user is within its limit after an update if and only if the counts listed more sources than the limit or the survivors fit anyway |
| `SessionConnectors.OldestSize` | internal/session/registry.go:428-441 | cutting an age-ordered list leaves exactly the smaller of the limit and its length |
| `SessionConnectors.OldestAreOldest` | internal/session/registry.go:432-441 | each source kept is older than each source cut |
| `SessionConnectors.SourcesAfterUpdate` | internal/session/registry.go:402-448 | in every state, the live sources of a user after an update are the oldest of those the revocation left when more than the limit are listed, and all of them otherwise |
| `SessionConnectors.LoweringOwnLimitPanics` | internal/session/registry.go:414-439 | in every state, lowering a user's own positive limit below its listed sources makes the update panic |
| `SessionConnectors.PanicsIff` | internal/session/registry.go:409-439 | with exact counts, an update panics if and only if some user has more sources in the table than its new limit and fewer than that survive the revocation |
| `SessionConnectors.UntouchedUsersDoNotPanic` | internal/session/registry.go:414-439 | with exact counts, an update does not panic when the leases of users over their new limit are all live and untouched |
| `SessionExamples.BreakdownIsReachable` | internal/session/registry.go:402-448 | a run from a new registry reaches a state with exact counts and an update that panics |
| `SessionExamples.RebindBreaksCounts` | internal/session/registry.go:493-522 | a run of Open, Close and Rebind leaves source counts for an empty table |
| `SessionExamples.LimitCanBeOverrun` | internal/session/registry.go:230-234 | a run with the move of a closed lease ends with three sources under a limit of two |
| `SessionExamples.EmptyTableCanPanic` | internal/session/registry.go:409-439 | a run with moves of closed leases ends with an empty table and an update that panics |
| `SessionConnectors.OpenSourceGrowth` | internal/session/registry.go:230-234 | with exact counts, Open never pushes a user's sources above the larger of their previous number and the limit |
| `SessionConnectors.OpenGrowthIff` | internal/session/registry.go:160-174 | in every state, it does so exactly for a new source of a user already at its limit that the counts already list, or while they list fewer than the limit, when no other test stands against it |
| `SessionConnectors.RebindSourceGrowth` | internal/session/registry.go:506-521 | with exact counts, neither does Rebind |
| `SessionConnectors.RebindGrowthIff` | internal/session/registry.go:506-521 | in every state, it does so exactly when a lease that vacates no source moves to a new one for a user already at its limit, and the counts already list that source or, less one for the source left, list fewer than the limit |
| `SessionConnectors.SourcesAfterMove` | internal/session/registry.go:506-521 | the detach arithmetic of Rebind is exact: the number of sources after the move, in all four cases |
| `SessionAdmission.AdmittedExactlyWhen` | internal/session/registry.go:143-162 | in every state, Open admits if and only if the registry is open, the user authorised, source, port and candidates allowed, a connector free and both limits of the kind not reached |
| `SessionAdmission.AdmittedOnExactCounts` | internal/session/registry.go:230-251 | with exact counts the connector test is that the source is in use or fewer sources than the limit are |
| `SessionAdmission.RefusedWithFirst` | internal/session/registry.go:145-162 | Open is refused with a reason if and only if that test is the first, in the order of the source, that fails |
| `SessionAdmission.RefusalOnlyCounts` | internal/session/registry.go:466-471 | a refusal is counted once under its reason and changes nothing else |
| `SessionAdmission.AdmissionAdds` | internal/session/registry.go:164-182 | the new lease has the user, source, kind and target of the request, the buckets in force and no history; other leases and settings stay |
| `SessionAdmission.RebindRefusedWithFirst` | internal/session/registry.go:493-515 | Rebind reports a reason if and only if that test is the first that fails, the vacated source counting as free |
| `SessionAdmission.RebindMoves` | internal/session/registry.go:516-522 | when no test fails the lease changes its source and no other lease changes |
| `SessionAdmission.RebindRefusalOnlyCounts` | internal/session/registry.go:493-515 | otherwise only the refusal is counted |
| `SessionAdmission.RebindOnExactCounts` | internal/session/registry.go:506-515 | with exact counts a live lease may move exactly where its user could open a new one if this one were closed |
| `SessionAdmission.CloseReleases` | internal/session/registry.go:538-565 | Close takes a lease of either kind out of the table and leaves every other as it is |
| `SessionConnectors.UpdateWithinIff` | internal/session/registry.go:253-303 | after an update a user is within its limit if and only if the new snapshot has it, with no limit or one of at least its sources |
| `SessionConnectors.StepWithinLimit` | internal/session/registry.go:230-234 | with exact counts, every step keeps a user that is within its limit within it, unless it is an update that removes the user or lowers its limit |
| `SessionConnectors.RunWithinLimit` | internal/session/registry.go:642-650 | so does every run in which no closed lease moves, with any updates, until one removes the user or lowers its limit |
| `Ledger.StepExactIff` | internal/session/registry.go:143-577 | a critical section keeps exact source counts exact if and only if it does not move a closed lease |
| `Ledger.EveryTidyRunExact` | internal/session/registry.go:79-577 | along every run from a new registry in which no closed lease moves, the source counts are those of the table |
| `Ledger.BooksExact` | internal/session/registry.go:164-181 | the counts match the table if and only if they equal the counts recomputed from it, with no zero or empty entry |
| `Ledger.BookInMatches` | internal/session/registry.go:170-181 | adding a lease keeps the counts exact |
| `Ledger.BookOutMatches` | internal/session/registry.go:538-577 | removing a lease keeps the counts exact, and the defensive tests for zero never fire |
| `Ledger.BookMoveMatches` | internal/session/registry.go:516-521 | moving a lease of the table keeps the counts exact |
| `Ledger.BookMoveOfClosedBreaks` | internal/session/registry.go:493-522 | moving a lease that is no longer in the table makes the source counts wrong, and no other count |
| `Ledger.CountsAgree` | internal/session/registry.go:230-251 | exact source counts answer the tests on sources as the table would |
| `Ledger.TallyOut` | internal/session/registry.go:544-562 | in every state, removing a lease keeps the counts per kind, each of which was positive |
| `Registry.Registry.constructor` | internal/session/registry.go:79-89 | the new registry has the table of its first snapshot and exact counts |
| `Registry.Registry.Open` | internal/session/registry.go:143-183 | in every state, the second critical section admits exactly when no reason to reject holds, and leaves the table and counts of that decision |
| `Registry.Registry.CheckOpen` | internal/session/registry.go:145-162 | the tests in source order, on the incremental counts, give the first applicable reason |
| `Registry.Registry.CheckRebind` | internal/session/registry.go:499-515 | the tests of Rebind on the source counts give the reason, detach arithmetic included |
| `Registry.Registry.RebindLease` | internal/session/registry.go:485-523 | in every state, the table, the source counts and the error after Rebind; exact counts stay exact if and only if the lease is in the table or nothing moves |
| `Registry.Registry.CloseOnce` | internal/session/registry.go:538-577 | the first Close takes the lease out of the table and every count, later ones do nothing |
| `Registry.Registry.BindInterrupt` | internal/session/registry.go:475-483 | the callback is stored, and returned for running at once exactly when the lease is already revoked |
| `Registry.Registry.AcquireHandshake` | internal/session/registry.go:91-102 | a ticket is granted exactly when the registry is open and the limit not reached; the count equals the unreleased tickets |
| `Registry.Registry.ReleaseOnce` | internal/session/registry.go:103-112 | releasing a ticket any number of times counts once |
| `Registry.Registry.HasUserSessions` | internal/session/registry.go:359-363 | true exactly when the table holds a lease of the user |
| `Registry.Registry.RevokeUserIds` | internal/session/registry.go:305-316 | exactly the live leases of the users are revoked, and exactly their callbacks collected, each once |
| `Registry.Registry.CloseRegistry` | internal/session/registry.go:318-330 | the registry is closed and the leases of all its users revoked, with their callbacks |
| `Registry.Registry.UpdateSnapshot` | internal/session/registry.go:253-303 | in every state, panics exactly on the stated condition, and otherwise leaves the table the update defines, the callbacks of all newly revoked leases and the affected users by rising id, for every iteration order |
| `Registry.RevokeEach` | internal/session/registry.go:385-400 | the loop revokes exactly the selected live leases and collects their callbacks without repeats |
| `Registry.EnforceEach` | internal/session/registry.go:402-448 | for any order of users: panics exactly when some slice is out of range, otherwise revokes exactly the leases outside the oldest sources |
| `Registry.EnforceOne` | internal/session/registry.go:414-445 | the same for one user after others |
| `Registry.OrderByAge` | internal/session/registry.go:428-437 | the sort lists every live source once, by rising first lease |
| `Registry.TailIsNotOldest` | internal/session/registry.go:438-441 | the slice after the limit holds exactly the sources outside the oldest `limit` |
| `Registry.SourceAges` | internal/session/registry.go:418-427 | the loop dates each live source by its smallest live lease id |
| `Registry.CompareUsers` | internal/session/registry.go:257-278 | which users are revoked whole, and which sources of the others |
| `Registry.PanicsAgree` | internal/session/registry.go:409-439 | the panic condition before the update and the failing slice after the revocation are the same |
| `Target.AuthorizeTarget` | internal/session/registry.go:185-228 | the target check rejects with the stated reason, or returns candidates that cover the lookup, are all allowed and contain the pinned address |
| `Target.Deduplicate` | internal/session/registry.go:206-215 | the candidates are the unmapped lookup results, each once |
| `Model.UserIdentityExact` | internal/session/registry.go:450-460 | an identity is accepted for a user if and only if it is the one the node writes for it |
| `Model.UserEmailInjective` | internal/model/model.go:53-55 | two users never share an identity |
| `Model.UserEmailNamesNode` | internal/model/model.go:53-55 | nor do users of different nodes |
| `Model.EffectiveLimit` | internal/session/registry.go:642-650 | the smaller of the positive limits, none when neither is positive |
| `Model.LastUserCounts` | internal/session/registry.go:608-614 | of several users with one id in a snapshot the last one counts |
| `Model.RestartNeededIff` | internal/xrayadapter/engine.go:250-255 | two nodes are equal for the data plane if and only if they differ at most in speed limit, connector limit and configuration version |
| `Model.SameInbound` | internal/xrayadapter/engine.go:108-154 | without a restart the inbound would be configured the same way, REALITY key included |
| `PortRules.ParsePorts` | internal/policy/policy.go:59-90 | succeeds exactly on lists of legal ports and ranges, with their sorted, duplicate-free canonical texts |
| `PortRules.ParsedPortsMeaning` | internal/policy/policy.go:115-134 | a port is blocked by the parsed rules if and only if it lies in some written port or range |
| `PortRules.ParsedPortsReparse` | internal/policy/policy.go:59-90 | the parsed rules, written out again, parse to themselves |
| `PortRules.ParseUnique` | internal/policy/policy.go:59-90 | a text has only one parse, whatever order the set of seen rules is walked in |
| `PortRules.RenderRoundTrip` | internal/policy/policy.go:64-84 | a canonical rule reads back as the range it was written for |
| `PortRules.RenderedRuleBlocks` | internal/policy/policy.go:115-134 | a canonical rule never reaches the parse-error branches and blocks exactly its range |
| `PortRules.FieldsCompose` | internal/policy/policy.go:136-145 | splitting at separators works piece by piece |
| `IpRules.ParseIPRules` | internal/policy/policy.go:11-38 | succeeds exactly when every part is readable, with the normalised rules, each once |
| `IpRules.ParsedRulesMeaning` | internal/policy/policy.go:100-113 | without short mapped prefixes, an address is blocked if and only if some written rule denotes it: the families agree, IPv4-mapped counting as IPv4, and the leading bits agree on 128 bits; so ::/0 denotes no IPv4 address |
| `IpRules.NormalizeKeepsMeaning` | internal/policy/policy.go:17-33 | unmapping, shortening and masking a rule keeps its meaning, for IPv4, IPv6 and mapped prefixes of at least 96 bits |
| `IpRules.MeaningKeptIff` | internal/policy/policy.go:17-33 | the meaning is kept if and only if the rule is not a mapped prefix shorter than 96 bits |
| `IpRules.ShortMappedIsDropped` | internal/policy/policy.go:17-24 | such a prefix is accepted and then matches nothing |
| `IpRules.ShortMappedExample` | internal/policy/policy.go:17-24 | ::ffff:0:0/95 is accepted, covers 0.0.0.0 as written and does not block it |
| `Accounting.RawTotal` | internal/accounting/outbox.go:109-118 | on wrapping arithmetic, the true sum, or an error exactly when that sum exceeds int64 |
| `Accounting.RawSumAdds` | internal/accounting/outbox.go:109-118 | the total of one entry is both its directions, and totals add up |
| `Accounting.WrapIsResidue` | internal/accounting/outbox.go:112-115 | wrapping arithmetic yields the one int64 with the same residue modulo 2^64 |
| `Accounting.ValidIsDrainShape` | internal/accounting/outbox.go:280-299 | valid entries are exactly those a drain can yield without a joint overflow |
| `Accounting.HeaderFromNode` | internal/accounting/outbox.go:280-288 | a new batch has a valid header exactly under validated node settings and a clock past 1970 |
| `Accounting.ValidateEntries` | internal/accounting/outbox.go:280-299 | accepts exactly entries with positive strictly rising users, no negative, empty or jointly overflowing entry |
| `Accounting.NewBatch` | internal/accounting/outbox.go:85-105 | the batch of the sorted entries, or an error exactly when header or entries are invalid |
| `Accounting.SortKeeps` | internal/accounting/outbox.go:95-95 | sorting permutes the entries and orders their users |
| `Accounting.DrainAcceptedIff` | internal/accounting/outbox.go:280-299 | a drain under a validated node makes a valid batch unchanged, unless one user's two directions overflow together |
| `Database.Database.ApplyBatch` | internal/database/mysql.go:262-334 | the database after one attempt with any outcome, and when success is reported |
| `Database.CommitsExactlyWhen` | internal/database/mysql.go:262-334 | an attempt commits if and only if it is not rolled back, the identifier is new, the node exists, and no rate times raw and no total exceeds int64, users without a row not mattering; otherwise it changes nothing |
| `Database.CommitRaisesBandwidth` | internal/database/mysql.go:318-328 | a commit raises the node's bandwidth by what all its users caused in both directions, and no other node's |
| `Database.RawSumByUser` | internal/database/mysql.go:318-321 | the total of a batch is the sum of what each user caused in both directions |
| `Database.ReportedExactlyWhen` | internal/database/mysql.go:275-289 | success is reported exactly when the batch's row with its node and digest is there afterwards, and the reply arrived or the row was there before |
| `Database.BillEntries` | internal/database/mysql.go:290-317 | bills every entry of every existing user, or fails exactly when some amount is not billable |
| `Database.AttemptsSettle` | internal/database/mysql.go:262-334 | after any attempts, repeats and outcomes: one whole contribution per committed batch in user totals and node bandwidth, users without a row included in the bandwidth |
| `Database.AttemptSettles` | internal/database/mysql.go:262-334 | the same for one attempt |
| `Database.RepeatIsHarmless` | internal/database/mysql.go:275-289 | a committed batch tried again changes nothing and is reported as applied |
| `Database.BilledClose` | internal/database/mysql.go:336-342 | a billed amount is within half a byte of rate times raw |
| `Database.BatchBilledClose` | internal/database/mysql.go:290-302 | a user's bill in one batch is one rounding away from rate times raw |
| `Database.TotalBilledClose` | internal/database/mysql.go:290-302 | a user's billed total is within half a byte per direction and mentioning batch of rate times raw |
| `Outbox.NamesFollowTime` | internal/accounting/outbox.go:139-139 | file names of later saves sort later, for all int64 times |
| `Outbox.NamesInjective` | internal/accounting/outbox.go:139-139 | two batches never share a file name |
| `Outbox.Store.Save` | internal/accounting/outbox.go:120-190 | the three outcomes, exactly when each occurs, and the directory each leaves; the temporary file must be new |
| `Outbox.Store.List` | internal/accounting/outbox.go:192-222 | refuses exactly the directories with an unacceptable entry, and otherwise lists every batch once by name, all of this node |
| `Outbox.Store.Remove` | internal/accounting/outbox.go:229-238 | removes one published file or nothing; success exactly when the file existed and both operations worked |
| `Outbox.ListedInPublicationOrder` | internal/accounting/outbox.go:220-221 | with rising save times the listing is the publication order |
| `Outbox.LeftoverStopsListing` | internal/accounting/outbox.go:200-202 | a leftover temporary file makes every listing fail |
| `OutboxView.SaveShows` | internal/accounting/outbox.go:174-190 | the directory after a published save shows the batch as the newest publication and nothing else changed |
| `OutboxView.FailedSaveShows` | internal/accounting/outbox.go:142-180 | a save that fails before the rename leaves the publications and an incomplete file |
| `OutboxView.RemoveShows` | internal/accounting/outbox.go:229-238 | a removal hides that publication and no other |
| `OutboxView.ListRefusedIff` | internal/accounting/outbox.go:192-222 | the directory of a run is refused exactly when an incomplete file lies there |
| `OutboxView.ListShows` | internal/accounting/outbox.go:192-222 | otherwise the listing is the visible publications in publication order |
| `OutboxView.StepShows` | internal/accounting/outbox.go:120-238 | every step of the protocol, crashes and power losses included, keeps the directory and the protocol's view of it together |
| `OutboxView.ReplayGuardIsListing` | internal/accounting/outbox.go:192-222 | the protocol lets a batch be replayed exactly when List accepts the directory and puts the batch's file first |
| `OutboxRuns.DirectoryRunIsRun` | internal/lifecycle/run.go:289-303 | runs in which the directory alone decides what is replayed are runs of the protocol, and the directory follows them |
| `OutboxRuns.ListedPrefix` | internal/lifecycle/run.go:289-303 | in every such run from an empty outbox the committed batches are a prefix of publication order, and every batch not committed has its file |
| `XrayEngine.XrayEngine.constructor` | internal/xrayadapter/engine.go:46-84 | a started engine describes its first snapshot in all three places, and its inbound is configured from that snapshot's node |
| `XrayEngine.XrayEngine.Apply` | internal/xrayadapter/engine.go:164-222 | for every failure point, and any client calls on the registry before its update: success leaves user table, session registry and snapshot describing the same new users, with dropped users retired; one failing operation leaves everything as it was; only a second failure, in the rollback, can leave another user table, and it is reported; a panic only when the table the update meets makes it panic |
| `XrayEngine.XrayEngine.Prepare` | internal/xrayadapter/engine.go:164-210 | the first half: refused exactly when more than limits change at the node; otherwise the user table becomes that of the new snapshot exactly when no needed operation fails, or stays as it was unless the rollback fails too |
| `XrayEngine.XrayEngine.Commit` | internal/xrayadapter/engine.go:211-221 | the second half panics exactly when the update does on the table it meets, and otherwise adopts the snapshot in registry, retired set and engine |
| `XrayEngine.ServedSafe` | internal/session/registry.go:91-577 | the registry inside a running service satisfies the session invariant after any client call |
| `UserSync.Synchronise` | internal/xrayadapter/engine.go:174-210 | the removals and additions give exactly the new user table, or the old one, changed UUIDs included; there is one operation for each user that leaves and each that comes, none for one that stays; the rollback is reported broken exactly when the table differs |
| `UserSync.RollbackUsers` | internal/xrayadapter/engine.go:224-240 | the table is back at its start if and only if no rollback operation failed |
| `UserSync.RedoRemovals` | internal/xrayadapter/engine.go:229-235 | putting users back over a stuck one fails, and the fault stays visible |
| `XrayEngine.XrayEngine.TakeCounter` | internal/xrayadapter/engine.go:324-335 | a counter is read and cleared, or left alone and refused when negative |
| `XrayEngine.XrayEngine.Drain` | internal/xrayadapter/engine.go:291-322 | visits snapshot and retired users by rising id and has exactly the effect of the drain function |
| `XrayEngine.XrayEngine.Restore` | internal/xrayadapter/engine.go:337-349 | has exactly the effect of the restore function |
| `XrayEngine.XrayEngine.CloseAndDrain` | internal/xrayadapter/engine.go:363-378 | seals the registry and drains, also after a failed rollback; a second call does nothing |
| `XrayEngine.OpenAfterClient` | internal/session/registry.go:359-363 | any call of a client changes who has a lease by at most one user, and adds only an authorised one of an open registry |
| `EngineState.DrainConserves` | internal/xrayadapter/engine.go:291-335 | what a drain returns or drops it took out of the counters, no more and no less |
| `EngineState.DrainEmpties` | internal/xrayadapter/engine.go:305-320 | a successful drain empties every counter it visits |
| `EngineState.DrainFrames` | internal/xrayadapter/engine.go:317-319 | a retired user is forgotten only without leases and with empty counters |
| `EngineState.DrainForgetsIff` | internal/xrayadapter/engine.go:315-319 | a successful drain forgets a retired user if and only if it had no lease and no traffic |
| `EngineState.DrainShapes` | internal/xrayadapter/engine.go:299-320 | drained entries have rising positive users, non-negative amounts, never two zeros |
| `EngineState.DrainLeavesNothing` | internal/xrayadapter/engine.go:291-322 | a successful drain leaves no traffic in any counter |
| `EngineState.RestoreConserves` | internal/xrayadapter/engine.go:337-349 | a restore puts back what it can, and the rest is exactly its loss |
| `EngineState.AdoptCovers` | internal/xrayadapter/engine.go:211-220 | removing or re-adding users leaves nobody with traffic or a lease outside snapshot and retired set |
| `EngineState.AdoptExact` | internal/xrayadapter/engine.go:211-220 | after a successful Apply retired are exactly the users no longer present that were present or retired before |
| `PipelineSafety.TrafficConserved` | internal/lifecycle/run.go:156-311 | in every run, for each user, direction and rate: counted, in hand, outstanding, applied and lost traffic add up to what was produced, so the first four never exceed it |
| `PipelineSafety.StepBalanced` | internal/lifecycle/run.go:156-311 | every step of the protocol keeps that balance |
| `PipelineSafety.CommittedPrefix` | internal/lifecycle/run.go:289-303 | in every run the committed batches are a prefix of publication order, each committed once; only committed batches are missing from the directory; the database holds exactly their contributions |
| `PipelineSafety.ReplayAdvances` | internal/lifecycle/run.go:294-301 | replay meets a committed batch again or the next one in line, and success is reported only for a committed batch |
| `PipelineSafety.NobodyOrphaned` | internal/xrayadapter/engine.go:211-220 | in every run each user with an open lease or a nonzero counter is in the snapshot or retired |
| `OutboxRuns.LeftoverFreezesDatabase` | internal/accounting/outbox.go:200-202 | while an incomplete file lies in the directory, no step the directory allows changes the database |
| `PipelineSafety.BilledTotals` | internal/database/mysql.go:291-302 | after any run a user's totals are the initial ones plus the bills of the committed prefix, each within half a byte of rate times raw |
| `PipelineSafety.StepOutbox` | internal/accounting/outbox.go:120-238 | every step keeps the outbox ordered, distinct and in agreement with the database |
| `PipelineSafety.StepEngine` | internal/xrayadapter/engine.go:164-378 | every step keeps counters in range and every user with traffic covered |
| `PipelineLoss.LossAccounted` | internal/lifecycle/run.go:156-311 | in every run what is missing of each key is exactly the sum its lossy edges shed: wrap-around, a drain that meets a negative counter, a restore without a counter, dropped entries, crashes, publications taken back by a power loss |
| `PipelineLoss.BoundedLoss` | internal/lifecycle/run.go:156-311 | with bounded production no counter is negative, and the first two of these edges shed nothing |
| `PipelineLoss.StepShed` | internal/lifecycle/run.go:156-311 | the exact loss of each step |
| `PipelineLoss.DrainOk` | internal/xrayadapter/engine.go:307-314 | without a negative counter a drain cannot fail |
| `PipelineLoss.FailedDrainMetNegative` | internal/xrayadapter/engine.go:307-314 | a drain that fails met a negative counter of a user it visits |
| `PipelineLoss.RestoreExact` | internal/xrayadapter/engine.go:340-348 | with room in the counters a restore loses exactly what has no counter |
| `Serving.RestoreIsLossless` | internal/lifecycle/run.go:162-164 | entries put back on the engine they were drained from are not lost, whatever clients did meanwhile |
| `Depot.Persist` | internal/lifecycle/run.go:278-287 | on the store: unless it reports an unpublished failure, exactly what was in hand has been published, at the rate in force when it was counted; without a fault it succeeds for every drain of this node, validated, whose sums fit |
| `Service.Replay` | internal/lifecycle/run.go:289-303 | over List, ApplyBatch and Remove: success means every published batch is applied and gone; an incomplete file leaves directory and database as they were; it succeeds when there is no fault, no such file and no batch the database refuses; nothing is lost |
| `Depot.ReplayFile` | internal/lifecycle/run.go:294-301 | on store and database: the database after one attempt; the file goes only after the database reported its batch as applied, and success exactly when both worked |
| `Operations.CollectableIsSaveable` | internal/lifecycle/run.go:278-287 | without a negative counter, an overflowing user, an incomplete file or a fault, what has been drained can be saved |
| `Service.Report` | internal/lifecycle/run.go:156-171 | whatever fails, it is a run of the protocol that, with bounded production, loses nothing; when it succeeds, exactly what the counters held has been published, and a replay that meets no obstacle applies it all; a drain fails only on a negative counter, and with no obstacle at all the report succeeds |
| `Restarting.ReloadUsers` | internal/lifecycle/run.go:228-246 | the process dies only when the update panics on the table it meets, always when nothing fails before, and then loses what the counters hold; otherwise nothing is lost with bounded production, whatever fails; on success all that was counted is published before the snapshot changes |
| `Restarting.Reload` | internal/lifecycle/run.go:227-276 | incremental if and only if nothing but limits and version change at the node, otherwise a restart; the loss of either with bounded production; success, or the stated outcome, when nothing stands against it; Xray runs with the settings of the snapshot in force |
| `Restarting.Restart` | internal/lifecycle/run.go:247-276 | with bounded production, the exact loss of a full restart in each of its outcomes; which outcome each failure gives, and the planned one when nothing fails |
| `Restarting.Recover` | internal/lifecycle/run.go:251-263 | after a failed save the previous engine gets back what was not published, less what has no counter on it, which with bounded production is the exact loss |
| `Service.Shutdown` | internal/lifecycle/run.go:305-311 | with bounded production only a failed save loses anything, a close error alone does not, and without an error all traffic ever produced is applied or was lost before; the outbox is replayed in any case |
| `Restarting.Bootstrap` | internal/lifecycle/run.go:131-153 | clients are served only after every batch left by earlier processes is applied; it succeeds when the engine starts and the replay meets no obstacle |
| `Lifecycle.Serve` | internal/lifecycle/run.go:48-58 | the events are handled one after the other, none left out, with any client activity before each, until one fails; only that one can lose anything with bounded production, and the process is dead exactly when it was a reload whose update panicked |
| `Lifecycle.Live` | internal/lifecycle/run.go:43-65 | the loop, more client activity, then shutdown unless a panic has ended the process: with bounded production the loss is that of the failed reload plus that of the failed save; a shutdown without obstacle succeeds; when it reports no error, applied traffic, earlier losses and the loss of the failed reload make up all that was produced |
| `Lifecycle.Lives` | internal/lifecycle/run.go:34-66 | any number of processes, each bootstrapped over what the last left, failing to start only for a reason, and ended by shutdown, panic or force: with bounded production applied and outstanding traffic, earlier losses and the sum of the named losses of all processes are what was produced, and after a clean end of the last nothing is outstanding |
| `Courses.EndedLife` | internal/lifecycle/run.go:59-65 | the losses of loop and shutdown add up to that of the process |
| `Courses.AllAccounted` | internal/lifecycle/run.go:34-66 | with an empty engine at the end, the balance over all processes |
| `Courses.OneMoreTurn` | internal/lifecycle/run.go:49-58 | a turn that goes on loses nothing, so only the last one of a course can |
| `Runtime.Runtime.Report` | internal/lifecycle/run.go:156-171 | the same as Service.Report on the object the service keeps |
| `Runtime.Runtime.Reload` | internal/lifecycle/run.go:227-276 | the same as Restarting.Reload, with the engine in place replaced |
| `Runtime.Runtime.Lives` | internal/lifecycle/run.go:34-66 | the same as Lifecycle.Lives |
| `Operations.AllSettled` | internal/lifecycle/run.go:305-311 | with nothing counted, in hand or outstanding, applied plus lost is all that was produced |

## Left out

- Xray-core, REALITY, VLESS and TLS: their calls are arbitrary steps; removing and adding a table user may fail without effect, removing an absent or adding a present one fails, and the table is keyed by identity alone.
- SHA-256, UUIDs, JSON, X25519 and base64: a digest is an arbitrary number, batch identifiers are new ones from outside.
- Real file system, MySQL driver and SQL text: only their outcome alternatives; a rename that takes effect and still reports an error is not among them.
- The rows of `user_traffic_log` and their human-readable sizes.
- float64: rates and bills are reals, and the 2^63 boundary of the comparison in `billed` is not claimed.
- Token bucket timing and `Wait`: only which bucket a lease draws from.
- Interleaving inside one drain (counter read, then session check): a drain is one step.
- Text parsing inside net/netip and DNS: an address is a family, a number and a zone, a lookup an arbitrary result; the order in which candidate and rule texts are sorted is not fixed.
- `ParseSourceIPs` and the remaining checks of `compileUser` and `validateNode`: element-wise checks; the bounds they establish appear as hypotheses (positive user ids, validated node).
- The difference between a nil and an empty list in the policy comparison of Update.
- Lease id exhaustion: ids are unbounded rather than 64-bit.
- The identity, source and network tests in front of Open's first critical section appear as rejections without effect on leases.
- Telemetry, outbox size warnings and limits, snapshot loading and staleness, configuration, secrets, state lock, logging, key generation, shell scripts and the panel overlay.
- Accounting.RawTotal: claims the total for non-negative entries only, which validation guarantees to its callers.
- Service.Report: leaves out telemetry and the size check that follow the replay.
- Runtime.Runtime.Report: leaves out the same.
- Lifecycle.Live: takes the events of the tickers and the first error as given; a failed snapshot load, which changes nothing until it ends the loop, is not among them.
- Lifecycle.Lives: a process killed inside an operation appears as one in which the interrupted call fails and the kill follows; a crash at any point of an operation and a power loss are steps of `Pipeline`.
- Target.Deduplicate: leaves the order of the candidates open, since every test looks at all of them and any pinned one is among them.
- IpRules.ParseIPRules: takes the parts as already parsed and leaves the order of the rules open.
- Accounting.NewBatch: takes the identifier and the digest from outside.
- Database.Database.ApplyBatch: leaves out the rows of `user_traffic_log`.
- Outbox.Store.Save: has one fault parameter for the size limit and all errors of the file system.
