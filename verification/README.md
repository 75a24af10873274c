# Verified model of the OUF MCP server's governed state

This project models the three parts of the server that keep durable or shared state, and proves what every run of them
guarantees.

**The governed attempt ledger.** Each tool call is an attempt with a reservation, an idempotency claim, a retry guard, a budget
window (calls, bytes, distinct objects) and possibly object debt. `Ledger` gives the tables as values and each database
transaction as a function that commits or rolls back; `LedgerStore` is the store itself, statement by statement, proved against
those functions. `LedgerEffects` and `RecoveryQueries` say in plain terms what each transaction answers and writes: columns,
amounts, times and the rows left alone. `LedgerInvariant`, `LedgerSteps` and `LedgerRuns` prove one inductive invariant over any
interleaving of the transactions while settlements are on time. `LedgerIndex`, `LedgerTracks` and `ControlBudget` hold the part
that survives any transaction at all, late settlements included, and `EveryRun` carries it along whole runs. `LedgerClaims`,
`LedgerProgress`, `RecoveryLeases`, `RetryThreshold` and `MinuteBudget` draw the safety claims from the two. `ServiceCalls` runs
concurrent calls (reserve, dispatch, execute, settle) against recovery, and `Recovery` is one pass of the recovery worker.
`Tallies` sums row shares over a table.

**The incident cursor and the publication bookmarks.** A page is a resumable merge of two paged, priority-sorted owner streams
and the server's own incident, with at most one refill per page. `IncidentOrder` and `IncidentMerge` hold the order and the
one-shot merge; `CursorFrames`, `OwnerPages` and `OwnerSnapshots` the frames, the page decoder and the owner snapshots;
`CursorComposer` composes one page and `CursorRuns` follows a cursor to its end. `CursorTables`, `CursorChains` and
`CursorHistory` are the cursor tables and their runs, `BookmarkTables` and `BookmarkHistory` the bookmark table and its runs,
`TableEffects` both tables' transactions and `OwnerReplies` the decoder in plain terms, `OperationalStores` the two stores as
objects, `PublicationVectors` the finished vector, `CursorService` starts, pages, resumes and finishes reads over the stores,
and `CursorReads` follows the cursors they hand out from the first page to the last.

**The authorization cache.** `PolicyCache` interleaves refreshes of the policy snapshot at the level of single pointer loads and
compare-and-swaps. `PolicyEvaluator` validates bundles and proves the evaluator's loops equal to a declarative deny-overrides
rule.

How the source is represented: a uuid is an opaque number (surrogate ids of windows and groups are replaced by their unique
natural keys); the five tables keyed by attempt id are one row; constraints of the SQL migrations that a transaction can trip
(unique keys, foreign keys, checks) are error branches; a digest that must not collide is the content it digests; time is an
integer number of nanoseconds; clocks, random uuids, owner answers, the gateway's reply and the server's own status are
parameters. Integers are unbounded.

Where a promise of the source does not hold of its code, the model keeps the code and states the exact condition:

- Settling a call is meant to conserve the window's books. `Reconcile` skips only RECONCILED reservations, so a settlement that
  arrives after recovery marked the attempt UNKNOWN (or released it) settles it again. `LedgerClaims.ReconcileExactly` gives the
  condition under which the invariant survives, `LateSettlement.LateSettlementLosesObjects` a concrete run in which a window
  loses the object another attempt still reserves. It can also rewrite a closed attempt; `LedgerClaims.ClosedIsRewrittenExactly`
  says when. The legal row combinations, the held amounts, the exact number of blockers, the closing of debt with its attempt
  and the freezing of closed attempts that were never settled need on-time settlements, and their theorems name that condition.
  These hold in every run: used amounts, object sets and debt caches, debt in the reserved amount and resolved only by evidence,
  the links of reports to attempts, ranks and revisions that never fall, guarded admission, the retry threshold, lease
  exclusion, the control caps and at-most-once execution.
- The objects an attempt owes are meant to be settled by owner evidence. Evidence is accepted only for UNKNOWN and UNRESOLVED
  attempts, so debt that outlives its attempt is owed for ever: `LedgerProgress.ClosedDebtIsNeverResolved`. Rejected evidence
  leaves such debt by design; `LedgerProgress.LateSettlementStrandsDebt` shows that every late settlement of an object-bearing
  UNKNOWN attempt does too.
- Each over-limit reply may cost a control window one byte beyond its cap, and 24 calls should bound their number. Settling a
  released reservation takes the held calls below zero, so late settlements can push it past 24: `LateOverruns.OverrunsExceed`
  gives runs of the service with any number of them up to 12 Mi. `LedgerClaims.ControlCaps` proves the bound for on-time runs
  and, for every run, that over-limit replies are at most the used calls. The same runs let more than 24 control reads of one
  minute through; `MinuteBudget.ControlReadsPerMinute` proves 24 a minute for on-time runs and, for every run, one more at most
  for each call of a released reservation that is settled again.
- The stall branch of an admission marks its retry guard blocked and then refuses. The refusal rolls that update back, so
  `blocked` is never stored; `LedgerClaims.GuardsCountAttempts` proves it stays false.
- A plain (non-publication) read composes a continuation that the store refuses when the owner page it is about to fetch carries
  a publication bookmark or parent: only publication reads check their pages for that. Which page will be fetched depends on the
  items at hand alone, so the condition, `BookmarkServed`, can be checked before composing. `CursorRuns.ContinuationAccepted`
  proves it exact, `CursorService.CommitAccepts` carries it to the store, and `BookmarkedRefill.ReadRefused` is a concrete read
  through the service where it happens: the first page is answered with a next cursor, and the page behind that cursor is
  refused.

## Model

| member | source | states |
|---|---|---|
| `LedgerRuns.RunKeepsInv` | internal/adapter/postgres/store.go:157-583 | every interleaving of the ledger's transactions, refused or committed, in which settlements are on time keeps the legal row combinations, the links between tables, the window books, the guard counts, the evidence links and the object sets |
| `LedgerClaims.Conservation` | internal/adapter/postgres/store.go:242-289 | in every run a window's used calls, bytes and objects and its debt cache equal the sums over its actuals, adjustments and ACTIVE debts, and while settlements are on time its held amounts equal the sums over its reservations |
| `LedgerClaims.LegalCombinations` | internal/adapter/postgres/store.go:386-465 | attempt, dispatch, reservation, claim, debt and revision always form one of the listed combinations |
| `LedgerClaims.ReconcileExactly` | internal/adapter/postgres/store.go:256-289 | a settlement keeps the invariant if and only if it rolls back or finds the reservation RESERVED or RECONCILED |
| `LedgerClaims.SettledOutOfTime` | internal/adapter/postgres/store.go:268-289 | a committed settlement of an UNKNOWN or RELEASED reservation always breaks the invariant, and the books exactly when it was released or held objects |
| `LedgerClaims.ClosedIsRewrittenExactly` | internal/adapter/postgres/store.go:256-289 | a settlement changes a closed attempt if and only if none of its guards refuses, and then the attempt had FAILED with its reservation released or still UNKNOWN |
| `LateSettlement.LateSettlementLosesObjects` | internal/adapter/postgres/store.go:256-289 | a concrete run: two admissions, a dispatch, recovery, then a late settlement that commits and leaves no object held while one is reserved |
| `LedgerClaims.GuardsCountAttempts` | internal/adapter/postgres/store.go:212-228 | in every run a guard counts exactly the committed admissions, is never marked blocked, and blocks for at least the attempts with open uncertainty, for exactly those while settlements are on time |
| `LedgerClaims.AdmissionIsGuarded` | internal/adapter/postgres/store.go:216-254 | after any run a new attempt enters only a group without open uncertainty and leaves it below the request's threshold |
| `RetryThreshold.ThresholdBound` | internal/adapter/postgres/store.go:212-228 | in every run, if every request of a group uses a threshold of at most t, at most t-1 attempts are ever admitted to it |
| `LedgerProgress.AttemptsOnlyAdvance` | internal/adapter/postgres/evidence.go:120-283 | from any state any run reaches, along any further run: an attempt's rank and revision never fall, its revision rises at most once, its debt only resolves, a settled cost is final, a closed attempt keeps its debt and once settled never changes; while later settlements are on time every closed attempt is frozen |
| `EveryRun.RunLasts` | internal/adapter/postgres/store.go:291-583 | along every run no attempt disappears and each one endures in rank, revision, request, debt and settled cost; while settlements are on time closed attempts never change |
| `LedgerProgress.DebtFollowsUncertainty` | internal/adapter/postgres/store.go:447-465 | in every run debt is owed in the reserved amount, an uncertain attempt owes its objects, only consumed evidence with an adjustment of the whole reservation resolves them, and what is owed belongs to open uncertainty or to a succeeded attempt that settled late, which on-time settlements rule out |
| `LedgerProgress.ClosedDebtIsNeverResolved` | internal/adapter/postgres/evidence.go:145-172 | whatever runs later, the debt of a closed attempt stays as it is and evidence for it is never accepted |
| `LedgerProgress.LateSettlementStrandsDebt` | internal/adapter/postgres/store.go:256-289 | a settlement that commits on an UNKNOWN object-bearing attempt closes it and leaves its whole reservation owed |
| `LedgerProgress.ReportsStayBound` | internal/adapter/postgres/evidence.go:17-51 | in every run an attempt has at most one filed report, and late compensation never rejects a report's owner, request or window |
| `LedgerProgress.ViolationTouchesNoBudget` | internal/adapter/postgres/evidence.go:215-226 | rejected evidence fails the attempt and quarantines the report but leaves windows, guards, adjustments, debt and reservation as they were |
| `LedgerProgress.RepairRestores` | internal/adapter/postgres/maintenance.go:26-85 | from any corrupted non-negative caches the repair makes exactly the selected windows' caches exact and changes nothing else but the audit trail, which records the drift found |
| `LedgerClaims.RepairNeverNeeded` | internal/adapter/postgres/maintenance.go:17-85 | in every state any run reaches the debt caches are exact, so the repair changes nothing |
| `LedgerSteps.ReserveKeepsInv` | internal/adapter/postgres/store.go:157-254 | an admission attempt, whatever its answer, keeps the invariant |
| `LedgerSteps.DispatchKeepsInv` | internal/adapter/postgres/store.go:291-299 | the dispatch compare-and-set keeps the invariant |
| `LedgerSteps.ReconcileKeepsInv` | internal/adapter/postgres/store.go:256-289 | an on-time settlement keeps the invariant |
| `LedgerSteps.MarkStaleKeepsInv` | internal/adapter/postgres/store.go:419-465 | marking an overdue dispatch UNKNOWN keeps the invariant |
| `LedgerSteps.OwnerEvidenceKeepsInv` | internal/adapter/postgres/store.go:498-572 | an owner's answer, applied or refused, keeps the invariant |
| `LedgerSteps.ExpireUnknownKeepsInv` | internal/adapter/postgres/evidence.go:77-113 | giving up on an UNKNOWN attempt keeps the invariant, its debt and its blocker included |
| `LedgerSteps.LateCompensateKeepsInv` | internal/adapter/postgres/evidence.go:120-283 | every branch of late compensation keeps the invariant, and stored evidence never binds to the wrong attempt |
| `LedgerEffects.AdmissionExactly` | internal/adapter/postgres/store.go:157-254 | a new attempt is admitted exactly when the request is supported, fits what its window has left, its group is neither blocked nor at the threshold and the tables accept it; it enters the one window that starts at a multiple of its length and contains the time, and its row, window, guard and claim are given column by column |
| `LedgerEffects.ReplayExactly` | internal/adapter/postgres/store.go:174-188 | a claimed tuple answers its attempt again exactly when the request hash is the same and the attempt is not UNKNOWN or UNRESOLVED |
| `LedgerEffects.DispatchExactly` | internal/adapter/postgres/store.go:291-299 | an attempt starts exactly when it is ADMITTED, undispatched, at the expected lock version and the request id is unused; it then runs under that request until its lease ends |
| `LedgerEffects.SettlementExactly` | internal/adapter/postgres/store.go:256-289 | a settlement leaves the attempt SUCCEEDED or FAILED as reported, acknowledged, without lease and RECONCILED at the actual cost, moves its window by the reserved and actual amounts, and touches no other attempt |
| `LedgerEffects.AnswerExactly` | internal/adapter/postgres/store.go:498-572 | an answer closes an UNKNOWN attempt exactly when it comes from its worker for its request, is not itself unknown, fits the reservation and no objects were reserved; the closed row is given column by column, and an unknown answer only gives the attempt back |
| `LedgerEffects.FilingExactly` | internal/adapter/postgres/evidence.go:17-51 | a report is filed exactly when it is presentable and its owner was sent the request; again it is a repetition, and another report is a conflict |
| `LedgerEffects.CompensationExactly` | internal/adapter/postgres/evidence.go:120-283 | trusted evidence compensates, once, an attempt given up on or one it proves was never dispatched, untrusted evidence fails the attempt; the row, the object set, the adjustment and the report are given column by column |
| `RecoveryQueries.PassIsRight` | internal/adapter/postgres/store.go:351-496 | a recovery pass, told in times: an attempt becomes UNKNOWN only if its lease ended before now, is released only if admitted before the grace and never dispatched, is handed out only if UNKNOWN and unleased; every other attempt is unchanged, and one that is due is passed over only if the limit went to others at least as old |
| `RecoveryQueries.GivingUpIsRight` | internal/adapter/postgres/evidence.go:53-118 | exactly UNKNOWN attempts uncertain since before the hold and not leased are given up, the oldest first and no more than the limit, each charged its reserved calls and bytes; every other attempt is unchanged |
| `RecoveryLeases.LeasesDisjoint` | internal/adapter/postgres/store.go:466-495 | in every run, late settlements and reports of displaced workers included: a second claim of an attempt whose lease was not handed back in between starts strictly after the first lease ended, whatever the clocks |
| `RecoveryLeases.DisplacedWorkerIsIgnored` | internal/adapter/postgres/store.go:514-530 | evidence from anyone but the lease holder changes nothing |
| `RecoveryLeases.RunKeepsLease` | internal/adapter/postgres/store.go:466-495 | along any run in which no accepted answer hands the lease back, it is kept or replaced by a later one |
| `LedgerClaims.ControlCaps` | internal/orchestration/operational_budget.go:38-48 | in every governed run, late settlements included, a control window stays within 24 calls, 2400 objects counting debt, and 12 MiB plus one byte for each over-limit reply; those are at most the used calls, and at most 24 while settlements are on time |
| `MinuteBudget.ControlReadsPerMinute` | internal/orchestration/operational_budget.go:38-48 | in every governed run the control reads one principal asks for within one minute of the clock under one manifest, and whose call is held or was used, number at most 24 plus the calls of released reservations settled again, so at most 24 while settlements are on time |
| `EveryRun.RunGoverns` | internal/adapter/postgres/store.go:200-211 | the control caps are kept along every governed run from any state that has them, on time or not |
| `EveryRun.RunKeeps` | internal/adapter/postgres/store.go:157-583 | every interleaving of the ledger's transactions, late settlements included, keeps used amounts, object sets, debt caches, admission counts and at least one blocker per open attempt |
| `LateOverruns.OverrunsExceed` | internal/adapter/postgres/store.go:256-289 | for every n up to 12 Mi a run of the service leaves n over-limit replies and n spending attempts in the control window of one minute, with n used and minus n held calls, and beyond 24 such a run is never on time |
| `ServiceCalls.GatewayAtMostOnce` | internal/orchestration/service.go:254-280 | however calls, retries, crashes, recovery and late settlements interleave, the gateway runs at most once per idempotency tuple and every successful reservation of a tuple names the same attempt |
| `ServiceCalls.ConflictIsRefused` | internal/adapter/postgres/store.go:174-188 | a claimed tuple with another request hash is refused in every reachable state and nothing changes |
| `ServiceCalls.ReplyIsSettled` | internal/orchestration/service.go:281-314 | whatever runs before and in between, a call that executes and settles later leaves its attempt as it was, or closed at one call and the bytes it read, SUCCEEDED exactly when the gateway did and the reply kept to the reserved size; no other attempt changes |
| `ServiceCalls.ServiceKeepsControlCaps` | internal/orchestration/service.go:281-314 | the service's own calls keep the control caps however they interleave, crash or settle late, with at most 24 over-limit replies while settlements are on time |
| `LedgerStore.Store.constructor` | internal/adapter/postgres/store.go:26-48 | an empty database satisfies the invariant |
| `LedgerStore.Store.ReserveOnce` | internal/adapter/postgres/store.go:157-254 | the admission transaction is the specified one, keeps the invariant, and a new attempt enters the window that starts at a multiple of its length and contains the time |
| `LedgerStore.Store.MarkRunning` | internal/adapter/postgres/store.go:291-299 | the dispatch statement succeeds exactly for an ADMITTED, undispatched attempt at the expected lock version under an unused request id, and writes exactly the running columns |
| `LedgerStore.Store.ReconcileCall` | internal/adapter/postgres/store.go:256-289 | the settlement is the specified one, rolls back on error, keeps the invariant exactly under the stated condition, and leaves one attempt SUCCEEDED or FAILED as reported, acknowledged, RECONCILED at the actual cost |
| `LedgerStore.Store.MarkStaleAndClaim` | internal/adapter/postgres/store.go:351-496 | under the invariant no row-count check fails, and the result is the specified recovery of the first overdue rows in query order, with a candidate for each claimed attempt; told in times, only attempts whose lease or grace has passed change |
| `LedgerStore.Store.ApplyEvidence` | internal/adapter/postgres/store.go:498-572 | the owner's answer is applied as specified or rolled back, and no row-count check fails for a named worker; it closes one attempt as the owner reported or gives it back |
| `LedgerStore.Store.ExpireUnknown` | internal/adapter/postgres/evidence.go:53-118 | under the invariant exactly the first attempts UNKNOWN since before the hold become UNRESOLVED, charged in full, and their number is returned |
| `LedgerStore.Store.InsertEvidence` | internal/adapter/postgres/evidence.go:17-51 | evidence is filed once per backend request, a different report is a conflict |
| `LedgerStore.Store.CompensateLate` | internal/adapter/postgres/evidence.go:120-283 | late compensation is the specified verdict, rolls back on error, keeps the invariant, and the state, code and revision it reports are those the attempt is stored with |
| `LedgerStore.Store.ReconcileDebtCaches` | internal/adapter/postgres/maintenance.go:26-85 | the first drifted windows by start and row id are repaired one transaction each, with exact checked, repaired and delta counts, up to the first negative total |
| `LedgerStore.ExpireOne` | internal/adapter/postgres/store.go:386-418 | the statements that fail an overdue admission all affect one row and release its whole reservation |
| `LedgerStore.MarkOneStale` | internal/adapter/postgres/store.go:434-465 | the statements that mark a dispatch UNKNOWN all affect one row, and only a dispatch whose lease ended before now |
| `LedgerStore.SettleOne` | internal/adapter/postgres/store.go:544-571 | the statements that close an UNKNOWN attempt all affect one row, or the claim is missing |
| `LedgerStore.ExpireOneUnknown` | internal/adapter/postgres/evidence.go:78-112 | the statements that give up on an attempt all affect one row |
| `LedgerStore.ViolateOne` | internal/adapter/postgres/evidence.go:215-226 | the statements that record a violation all affect one row |
| `LedgerStore.CompensateOne` | internal/adapter/postgres/evidence.go:227-272 | the statements that accept evidence all affect one row, in the specified new state |
| `LedgerStore.Judge` | internal/adapter/postgres/evidence.go:182-274 | scope, binding, hash and contract checks lead to the specified verdict |
| `LedgerStore.JudgeBound` | internal/adapter/postgres/evidence.go:200-274 | evidence bound to its attempt gets the specified verdict, and the reported state, code and revision are the stored ones |
| `LedgerStore.InspectReport` | internal/adapter/postgres/evidence.go:200-214 | the hash and contract checks name the specified violation, if any, and the distinct hashes |
| `LedgerStore.InspectHashes` | internal/adapter/postgres/evidence.go:200-211 | the loop finds the distinct hashes and whether any is malformed or of a version that is not allowed |
| `LedgerStore.InsertObjects` | internal/adapter/postgres/evidence.go:227-234 | inserting the hashes stores their union with the present ones and counts the new ones |
| `LedgerStore.ActiveDebt` | internal/adapter/postgres/store.go:204-207 | the sum of a window's ACTIVE debts |
| `LedgerStore.SelectFirst` | internal/adapter/postgres/store.go:357-385 | the first rows by time and id, up to the limit |
| `LedgerStore.AttemptFacts` | internal/adapter/postgres/store.go:574-583 | the columns each attempt state implies, and the totals that keep counters and blockers from going negative |
| `Recovery.RunOnce` | internal/recovery/service.go:47-86 | a configured pass keeps the invariant, completes if and only if every answer is applicable and audited, and then every candidate of a pass told in times was closed as its owner answered or given back, the counts are exact, and attempts held too long were given up |
| `Recovery.AppliesExactly` | internal/adapter/postgres/store.go:518-543 | an answer to a leased attempt commits exactly when it names the request, fits the reservation and the attempt has no objects, and touches no other attempt |
| `IncidentOrder.BeforeIsTotal` | internal/operational/aggregator.go:302-323 | the priority order never holds both ways and compares any two incidents that differ in module or id |
| `IncidentOrder.OrderMeans` | internal/operational/aggregator.go:302-323 | the order in plain terms: unresolved before resolved, then critical, error, warning, information, then action required, then the latest, then module and id |
| `IncidentOrder.NotAfterTransitive` | internal/operational/aggregator.go:302-323 | the priority order has no cycles and consistent ties |
| `IncidentMerge.MergeIsSorted` | internal/operational/cursor_composer.go:283-309 | the one-shot merge of sorted streams is sorted |
| `IncidentMerge.MergeIsComplete` | internal/operational/cursor_composer.go:283-309 | the one-shot merge holds every item of both streams and the own incident exactly once |
| `IncidentMerge.MergeKeepsOwners` | internal/operational/cursor_composer.go:283-309 | each owner's items appear in the merge in the owner's order |
| `OwnerPages.DecodePage` | internal/operational/cursor_composer.go:373-430 | a reply decodes exactly when its header, tokens and items are sound, with the specified page or error |
| `OwnerPages.DecodeItems` | internal/operational/cursor_composer.go:400-424 | the loop accepts exactly sound items with distinct ids |
| `OwnerPages.DecodeIsSound` | internal/operational/cursor_composer.go:373-430 | a decoded page is sorted, owned by its module, with distinct ids and a full page before every continuation |
| `OwnerReplies.DecodeExactly` | internal/operational/cursor_composer.go:373-430 | a reply is used exactly when it is whole, current, unrecorded and of the expected profiles, names its page and, when truncated, another after a full one, and lists legible, distinct incidents in priority order; the page holds them as described, an unusable reply counts as no answer and any other as a conflict |
| `OwnerReplies.PublicationPageMeans` | internal/operational/publication_composer.go:111-128 | a publication page carries a bookmark on the last page only, continuing the resumed one and telling whether anything moved |
| `OwnerSnapshots.OrderedFlat` | internal/operational/cursor_composer.go:269-272 | a snapshot whose page boundaries are in order is one sorted stream |
| `CursorComposer.Refill` | internal/operational/cursor_composer.go:236-278 | bringing an owner's head to hand loses no item, reads at most one page, moves at most one page, and stops at a head that would take a fourth read |
| `CursorComposer.Pick` | internal/operational/cursor_composer.go:283-298 | the loop picks the owner whose head comes first |
| `CursorComposer.MergePage` | internal/operational/cursor_composer.go:229-319 | a page conserves what there was to emit, fills up unless a read is pending, makes at most three reads, succeeds whenever the owners serve an ordered snapshot, and fetches exactly the owner page foreseen from the items at hand |
| `CursorRuns.PagingIsOneShot` | internal/operational/cursor_composer.go:229-364 | for every page limit and every refill break, a read followed to its end emits the one-shot merge: complete, sorted, each owner in its own order |
| `CursorRuns.EveryPageProgresses` | internal/operational/cursor_composer.go:234-319 | a page with a continuation strictly decreases unread items, unread pages and the unemitted own incident, and one without items has just refilled |
| `CursorRuns.NoMoreMeansNothingLeft` | internal/operational/cursor_composer.go:311-319 | without a continuation nothing is left |
| `CursorRuns.ContinuationAccepted` | internal/operational/cursor_state.go:115-143 | a composed continuation is always in scope, and valid if and only if the read is a publication read or the page it was about to fetch carries neither bookmark nor parent |
| `CursorRuns.BookmarksAreServed` | internal/operational/cursor_composer.go:236-278 | a plain page ends on positions with a bookmark exactly when the owner page it was about to fetch carries one |
| `BookmarkedRefill.ReadRefused` | internal/operational/cursor_composer.go:48-161 | a concrete plain read through the service and fresh stores: the first page is answered with sixty items and a next cursor, and the page behind that cursor is refused as a conflict |
| `CursorRuns.ScopeKept` | internal/adapter/postgres/operational_cursor.go:204-241 | a composed continuation satisfies the store's scope check |
| `CursorService.CommitAccepts` | internal/adapter/postgres/operational_cursor.go:104-178 | for a live page, first commit or replay, the store commits if and only if no other commit and no capacity stands in the way and no bookmark was about to be served to a plain read, and then a refusal changes nothing |
| `CursorService.ReadBack` | internal/operational/cursor_composer.go:140-152 | the pages read again match the frame's positions, and an honest owner always matches |
| `CursorService.Compose` | internal/operational/cursor_composer.go:229-364 | a composed page is sound, the cursor store changes by exactly one commit whose next cursor names the continuation frame, a bookmark is issued exactly at the end of a publication read, and over cooperating owners the page is refused exactly where a bookmark was about to be served to a plain read, apart from the bookmark store |
| `CursorService.Page` | internal/operational/cursor_composer.go:113-161 | paging loads, re-verifies and continues the stored frame, refuses a changed own status or a frame of the other kind, changes no cursor on error, and over cooperating owners ends as `Compose` does |
| `CursorService.Capture` | internal/operational/publication_composer.go:191-262 | starting or resuming a read builds a valid start frame over the owners' first pages, changes the cursor store by exactly one creation and one commit, and over cooperating owners and a store with room it ends as `Compose` does |
| `CursorService.Resume` | internal/operational/publication_composer.go:157-190 | a resumed read stands on the live bookmark's vector and filters, every continuation it hands out keeps that vector and parent, and a bookmark issued at once continues it |
| `CursorService.Finalize` | internal/operational/publication_composer.go:313-338 | a finished publication read always yields a canonical vector, and its answer is exactly the bookmark store's: only the store refuses, and an issued bookmark has both final boundaries, the read's filters and its parent |
| `CursorReads.ReadToEnd` | internal/operational/cursor_composer.go:48-161 | following the cursors from the first page ends, and over owners that answer from one snapshot what was delivered is the one-shot merge: complete, each owner in its own order, every incident allowed above every later one by severity, action, time, module and id, with the own incident the server's status calls for; a publication read ends in a bookmark that continues the one it resumed from |
| `CursorReads.Follow` | internal/operational/cursor_composer.go:113-161 | the page behind a next cursor continues the previous page's frame and leaves a next cursor exactly when there is more |
| `PublicationVectors.FinalVectorFits` | internal/operational/publication_composer.go:58-128 | when nothing more is to come both owners are finished, the vector is canonical, and it continues the resumed vector or starts a fresh chain |
| `PublicationVectors.CollectPositions` | internal/operational/publication_composer.go:318-328 | the loop collects both final positions in owner order, or refuses an unfinished owner |
| `CursorHistory.SessionsAreChains` | internal/adapter/postgres/operational_cursor.go:22-71 | in every run a session's nodes are pages 0, 1, 2 and so on, one node each, each leading to the next |
| `CursorHistory.ReplayIsFenced` | internal/adapter/postgres/operational_cursor.go:134-178 | once a page is committed, whatever runs in between, the same digest and next frame get the same successor and anything else is refused |
| `CursorHistory.CapsAlwaysHold` | internal/adapter/postgres/operational_cursor.go:180-202 | the session and node caps per principal, per tenant and in total hold in every run |
| `CursorHistory.RunSettles` | internal/adapter/postgres/operational_cursor.go:104-178 | along every run a node keeps its identity, a committed digest and successor are final, and removed tokens never return |
| `TableEffects.CreateExactly` | internal/adapter/postgres/operational_cursor.go:22-71 | a session is opened exactly for an identified caller, an acceptable first frame and room under the caps once the first expired session is cleared; it lives 30 minutes, and nothing else changes |
| `TableEffects.LoadExactly` | internal/adapter/postgres/operational_cursor.go:73-102 | a page loads for its own caller until its session expires; to others it does not exist |
| `TableEffects.CommitExactly` | internal/adapter/postgres/operational_cursor.go:104-178 | a live page is committed exactly with its stored digest and successor again, or for the first time with a frame that continues it and room under the caps; it then gets its digest and one new page, and nothing else changes |
| `TableEffects.FrameMeans` | internal/operational/cursor_state.go:115-143 | the accepted frames in plain terms: profiles, ranges, one position per owner, and bookmarks only in publication reads, continuing the resumed vector |
| `TableEffects.ContinuesMeans` | internal/adapter/postgres/operational_cursor.go:204-241 | between accepted frames the scope check means the same query and status, and each owner, found by name, goes on within its snapshot by at most one page |
| `OperationalStores.CursorStore.CreateIncidentCursor` | internal/adapter/postgres/operational_cursor.go:22-71 | creation clears at most the session that expired first, respects the caps and is the specified transaction; a success leaves one new session of 30 minutes on its first page |
| `CursorHistory.StoredPagesLoad` | internal/adapter/postgres/operational_cursor.go:73-102 | a token answered by creation or commit loads, through any later run, the very frame it was given for, by the same binding, as long as its session lives |
| `OperationalStores.CursorStore.CommitIncidentCursorPage` | internal/adapter/postgres/operational_cursor.go:104-178 | committing fixes or replays a page as specified and keeps the chain invariant; a first commit sets the digest and adds the one next page, a replay changes nothing |
| `BookmarkHistory.BookmarksAlwaysLinked` | internal/adapter/postgres/publication_bookmark.go:77-168 | in every run, whatever the clock does: a stored parent has its child's scope and filters and the bookmarks its owners continue, roots continue nothing and the caps hold |
| `BookmarkHistory.RunsShareFilters` | internal/operational/publication_vector.go:127-144 | in every run filters are constant along every chain of stored bookmarks |
| `BookmarkHistory.LiveBookmarksDiffer` | internal/adapter/postgres/publication_bookmark.go:126-143 | while the clock does not go back, no two live bookmarks are equivalent |
| `BookmarkHistory.IdleResumeReturnsParent` | internal/adapter/postgres/publication_bookmark.go:108-119 | a resume without progress answers its parent and stores nothing |
| `BookmarkHistory.PutKeepsInv` | internal/adapter/postgres/publication_bookmark.go:77-168 | storing a bookmark keeps links, caps and the difference of live bookmarks as time moves on |
| `TableEffects.PutExactly` | internal/adapter/postgres/publication_bookmark.go:77-168 | a vector is stored exactly for an identified caller when it is complete and starts afresh or continues a live bookmark of the caller; unmoved it answers its parent, repeated it answers the oldest repetition, and otherwise, given room, it becomes a bookmark of 90 days and at most the first expired one is cleared |
| `TableEffects.FindExactly` | internal/adapter/postgres/publication_bookmark.go:38-75 | a bookmark loads for its own caller while it lives, is in conflict under another policy or manifest, and does not exist for others |
| `TableEffects.VectorMeans` | internal/operational/publication_vector.go:59-90 | the canonical vectors in plain terms: profile, filters, and the gateway's and ingestion's points with canonical tokens and digests |
| `OperationalStores.BookmarkStore.PutPublicationBookmark` | internal/adapter/postgres/publication_bookmark.go:77-168 | the transaction checks lineage, reuses the oldest live equivalent bookmark, clears at most one expired row and is the specified one; a success answers the unmoved parent, the oldest repetition or a new bookmark of 90 days |
| `OperationalStores.BookmarkStore.FindTwin` | internal/adapter/postgres/publication_bookmark.go:126-143 | the query finds the oldest live equivalent bookmark, if any |
| `BookmarkHistory.StoredBookmarksLoad` | internal/adapter/postgres/publication_bookmark.go:38-75 | a token answered by a put loads, through any later run, a canonical vector with the boundaries and filters that were put, as long as it lives |
| `PolicyCache.PublishedHistoryIsMonotone` | internal/authorization/cache.go:47-92 | under any interleaving of refreshes all published snapshots share one bundle id, never go back in version, activation or verification time, equal versions have equal digests and equal activation times equal versions |
| `PolicyCache.OnlyCheckedBundlesArePublished` | internal/authorization/cache.go:70-91 | only a refresh that passed the check against the snapshot still active publishes, and it appends one snapshot |
| `PolicyCache.ObjectionMeans` | internal/authorization/cache.go:70-85 | the check lets through exactly the bundles that may follow the active one, and names the reason for the others |
| `PolicyCache.RefreshFinishes` | internal/authorization/cache.go:69-91 | a refresh that holds a bundle, or lost the pointer to another after its check, and is then left alone publishes exactly when its bundle may follow |
| `PolicyEvaluator.Validate` | internal/authorization/cache.go:145-181 | the loops accept exactly complete bundles with unique ids and declared grants |
| `PolicyEvaluator.Evaluate` | internal/authorization/cache.go:202-285 | the evaluator's decision is the one the deny-overrides rule names: who is allowed satisfies tenant, capability, operation, scope and a covering grant with no denial, each refusal code names what is missing, and a validated bundle allows everyone who satisfies them |
| `PolicyEvaluator.RulesMean` | internal/authorization/cache.go:202-285 | the deny-overrides rule in plain terms, both ways: ALLOW means a described, open capability, a covering grant and no forbidding one, and the converse |
| `PolicyEvaluator.WalkGrants` | internal/authorization/cache.go:235-270 | the loop answers deny if any grant denies, else allow if any permits, else no applicable grant |
| `PolicyEvaluator.OneOutcome` | internal/authorization/cache.go:202-285 | a validated bundle decides every query one way |
| `PolicyEvaluator.OrderIsIrrelevant` | internal/authorization/cache.go:202-285 | no permutation of grants or capabilities changes any part of the decision |
| `PolicyEvaluator.DenyNeverAllows` | internal/authorization/cache.go:252-259 | adding DENY grants never turns a refusal into ALLOW |
| `PolicyEvaluator.AllowNeverRefuses` | internal/authorization/cache.go:235-270 | adding grants without DENY never turns ALLOW into a refusal |

## Left out

- Integer width: 64-bit overflow of counters, budgets and durations is not modelled; integers are unbounded.
- Byte-size caps: the 512 KiB reply, 16 KiB frame, 4 KiB vector and filter limits and JSON syntax are not modelled; they only add refusals.
- Transaction retries and locks: serialization retries, jitter, advisory-lock contention and `skip locked` are not modelled; each transaction is atomic.
- Audit events other than the two the ledger's transactions write themselves.
- Retention purges, `Admit`, `CreateSession`, `Maintain`, `EnsureManifest` and the older attempt path without admission context.
- `CursorReads.ReadToEnd`: says what a read that reaches its end delivered; the 200-page cap, unavailable owners and a refusing store end a read with an error instead.
- `CursorService.Compose`: leaves open whether the bookmark store accepts the last page of a publication read; its caps and an expired parent may refuse it.
- `BookmarkHistory.LiveBookmarksDiffer`: assumes a clock that does not go back, since what is live depends on the time of asking.
- The service's authorization, fingerprint and redaction steps around a call, and the delegation of identity.
- Staleness and principal checks of `Authorize`, bundle transport and JSON deep copies.
- HTTP handlers, MCP registration, widgets, metrics, the manifest loader, status projection and rollout scripts: single-pass plumbing without state of its own.
