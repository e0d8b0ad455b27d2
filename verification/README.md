# Formal model of the learning platform's stateful core

A Dafny model of the parts of the platform where correctness depends on interleavings, on money adding up, or on
parsing that must fail closed:

- **Refresh-token rotation with reuse detection** (section 4.14.2 of RFC 9700, plus this system's grace window):
  `RefreshModel` (tables, decisions, transactions, steps), `RefreshInvariants` and `RefreshSteps` (what every step
  keeps), `RefreshTheorems` (what follows over runs), `RefreshService` (the calls themselves, statement by statement,
  shown to be runs of the state machine).
- **Account deletion and physical settlement**: `DeletionModel`, `DeletionMoney` (whoever runs it), `DeletionSweep`
  (under the lease), `DeletionRaces` (split logins and late cancels), `DeletionService` (sweep, claims, holder's and
  administrator's calls in place).
- **Revenue**: `RevenueModel` and `RevenueSeries` (daily series against dashboard), `Rollup` (nightly statistics
  against raw events). Money is in whole piastres.
- **Access and recharge cards**: `CodesModel`, `CodesTheorems`, `CodesService`.
- **Academic ladders**: `LadderModel`, `LadderTheorems`, `LadderEdits` (pins, rungs, placement), and the read-through
  cache in `Cache`.
- **Migration gate**: `GateModel` (parser and verdict), `GateTheorems` (print and parse).
- **Bounded retry**: `Retry`.

`Options` and `StringOrder` are shared helpers. `dafny verify dfyconfig.toml` checks everything.

## How to read it

State machines are values (`State`, `Step`, `Enabled`, `Next`, `Run`). A database statement or transaction is one
step, so everything between two statements of a call can be somebody else's step. The service classes update their
fields in place; each method's postcondition ties the new tables to a specification function or to `Next`, and a
method with several statements takes a script of other parties' steps and proves that what happened is a `Run`. All
theorems over runs therefore speak of the methods too. Fields named `hist`, `claims`, `losses`, `dirty`, `truths` are
histories that no transition reads (apart from keeping minted ids fresh).

Assumptions, each visible in a definition or a `requires`:

- the clock never goes back; minted ids, token hashes and family ids are unused before (`RefreshModel.Enabled`);
- foreign keys and unique indexes hold: one PENDING deletion request per user, one redemption per card and student,
  one rung per structure and order, structure ids unique;
- a sweep ends inside its 30-minute lease, and a cancel that changes a row commits before that row's deletion date
  (`DeletionSweep.Careful`). The lemmas that need neither are in `DeletionMoney`. What goes wrong without the second
  one, and exactly when, is in `DeletionRaces`;
- refresh-token pruning by maintenance does not run;
- the database session works in UTC, so `DATE(...)` and the service's own day keys agree.

## Where the code and its description differ

The model follows the code. These are the places where a claim made in the repository holds only under a condition;
each has a lemma that states the condition.

- A cancel captures its clock before its conditional update and never looks at holds. Delayed past the deletion date
  it can leave an unsettled hold on a CANCELLED request in either order: it commits before the hold of a sweep that has
  already read the row, or after it (`DeletionRaces.LateCancelMisplacesHold`, a run from the start for each). Some
  continuation of a successful cancel has such a hold if and only if the hold was there, or a sweeper still carries the
  row, unread or weighed with money in the wallet (`DeletionRaces.MisplacedHoldIff`). Confirming that settlement is
  accepted and empties the wallet of a living account (`DeletionRaces.MisplacedIsPaid`).
- A login checks for an open deletion and creates its session in separate statements. It leaves an active session of a
  leaving user if and only if a request came in since the check that is not cancelled when the session is written
  (`DeletionRaces.SplitLoginLeaks`, `DeletionRaces.LoginRacesRequest`).
- Re-running the nightly rollup corrects a number only while the course still has a row on that day. No code path
  removes such rows, so this takes an edit by hand (`Rollup.RerunCorrectsIff`, `Rollup.CleanDayIsRightIff`,
  `Rollup.StaleRow`).
- The series counts every ledger line as a transaction, the dashboard only payments. They agree if and only if every
  line of the window is a payment (`RevenueSeries.TransactionsArePaymentsIff`).
- A cache bust deletes batch by batch while loads go on; a key it deleted can be back at its end, and then a load
  stored it after its deletion (`Cache.RedisService.DelByPattern`).
- Replacing a ladder's entries reads the rungs before its transaction. Exactly the submitted orders are active
  afterwards if and only if no other active rung came in between (`LadderEdits.CatalogService.ReplaceStructureEntries`).
- The card preview accepts a teacher card in front of every course (`CodesTheorems.PreviewIsExactIff`).
- A generated batch hands back all its candidates, including those that were already somebody's card and were skipped
  (`CodesService.CodesService.GenerateBatch`).
- The migration gate refuses a declaration of pending migrations whose names it cannot read - unless the same output
  also says that the schema is current (`GateTheorems.UnreadableDeclarationPassesIff`,
  `GateTheorems.UnreadableDeclarationPasses`).
- A family revocation leaves no live token, but a grace-window reissue decided before it can still write one. That
  token is useless because its session is dead (`RefreshTheorems.LateReissueIsLive`,
  `RefreshTheorems.ReplayKillsTheFamily`).
- A database retry after a lost acknowledgement writes again over what others wrote in between
  (`Retry.LostAckOverwritesIff`).
- A serializable transaction whose acknowledgement is lost throws although it committed
  (`Retry.WithSerializableRetry`).

## Model

| member | source | states |
|---|---|---|
| RefreshSteps.StepKeeps | src/modules/auth/auth.service.ts:405-603 | every step of every call, sign-in, logout, password change and session revocation keeps the whole invariant, and used, revoked and linked fields are never cleared |
| RefreshInvariants.RotateLedger | src/modules/auth/auth.service.ts:524-576 | the compare-and-set transaction keeps the token ledger: one unused token is replaced by one unused token, linked to it |
| RefreshInvariants.ReissueLedger | src/modules/auth/auth.service.ts:691-709 | the grace-window transaction adds exactly one unused token and counts one reissue |
| RefreshInvariants.RevokeLedger | src/modules/auth/auth.service.ts:736-755 | revoking tokens together with their sessions keeps the ledger |
| RefreshInvariants.SignInLedger | src/modules/auth/auth.service.ts:325-386 | a sign-in opens a new family with one live token in its own session |
| RefreshTheorems.ReachableInv | src/modules/auth/auth.service.ts:405-755 | the invariant holds in every state any interleaving can reach |
| RefreshTheorems.UnusedTokensConserved | src/modules/auth/auth.service.ts:524-576 | per family, unused tokens are exactly one plus the grace reissues; live ones are at most that, and exactly that until one of them is revoked |
| RefreshTheorems.ChainsNeverClose | src/modules/auth/auth.service.ts:540-560 | replacement links are injective, acyclic and stay inside the family |
| RefreshTheorems.Tip | src/modules/auth/auth.service.ts:619-655 | following the links from any token ends at an unused token of the same family, session and user |
| RefreshTheorems.RotatedAtMostOnce | src/modules/auth/auth.service.ts:533-537 | no two calls in any interleaving rotate the same token, and no two calls that ended with a pair, rotated or reissued, got the same one |
| RefreshTheorems.PairsStep | src/modules/auth/auth.service.ts:524-576 | every step keeps the pairs of ended calls distinct |
| RefreshTheorems.ConflictUnreachable | src/modules/auth/auth.service.ts:578-589 | the conflict answer of the retried attempt is never given |
| RefreshTheorems.CallsEnd | src/modules/auth/auth.service.ts:405-603 | a call takes at most seven steps of its own, whatever the others do |
| RefreshTheorems.RevokedIsFinal | src/common/guards/jwt-auth.guard.ts:129-157 | a dead session stays dead in every continuation and the guard refuses all its access tokens |
| RefreshTheorems.LatecomersStayBarred | src/modules/auth/auth.service.ts:498-500 | no call that arrives after a session died ever obtains anything from a token of that session |
| RefreshTheorems.ReplayKillsTheFamily | src/modules/auth/auth.service.ts:477-490 | after a replay was answered, every call that had not read its row by then fails on any token of the family, even on a token a racing reissue inserts, and so do the session's access tokens |
| RefreshTheorems.RevocationEmptiesFamily | src/modules/auth/auth.service.ts:736-755 | the revocation transaction leaves no live token in the family |
| RefreshTheorems.LateReissueIsLive | src/modules/auth/auth.service.ts:691-709 | a reissue decided before a revocation still adds exactly its own live token, and the session stays dead |
| RefreshTheorems.FamiliesShareOneSession | src/modules/auth/auth.service.ts:736-755 | all tokens of a family share one session and user, and a revoked token's session is revoked |
| RefreshTheorems.RaceRun | src/modules/auth/auth.service.ts:460-475 | while nothing is revoked and the window is open, calls racing for one token stay in the states that lead to success |
| RefreshTheorems.ConcurrentCallsAllSucceed | src/modules/auth/auth.service.ts:578-589 | of any number of calls presenting one fresh token none is refused, each ends with a usable pair, and exactly one rotates |
| RefreshService.AuthService.RotateInTransaction | src/modules/auth/auth.service.ts:524-576 | claims, links and slides in place exactly as the transaction function says, or changes nothing |
| RefreshService.AuthService.ReissueInTransaction | src/modules/auth/auth.service.ts:691-709 | writes the new row and slides the session exactly as the transaction function says |
| RefreshService.AuthService.RevokeInTransaction | src/modules/auth/auth.service.ts:747-754 | revokes exactly the unrevoked tokens and the sessions it is given |
| RefreshService.AuthService.Logout | src/modules/auth/auth.service.ts:761-794 | ends the session and its tokens as the logout step does |
| RefreshService.AuthService.LogoutAll | src/modules/auth/auth.service.ts:796-826 | ends all the user's sessions and tokens as the step does |
| RefreshService.AuthService.ChangePassword | src/modules/auth/auth.service.ts:891-955 | ends everything and moves the credential date, as the step does |
| RefreshService.AuthService.RotateRefresh | src/modules/auth/auth.service.ts:405-603 | the call with its retry, interleaved with others, is a run of the machine; it ends, and never with a rotation conflict |
| RefreshService.AuthService.RevokeFamily | src/modules/auth/auth.service.ts:736-755 | collecting sessions and revoking, interleaved with others, leaves no live token at its end |
| DeletionMoney.TerminalIsFinal | src/modules/account-deletion/account-deletion.service.ts:246-290 | COMPLETED and CANCELLED are final for any number of sweepers; a cancelled request is never erased |
| DeletionMoney.CompletionIsGuarded | src/modules/account-deletion/account-deletion.service.ts:723-837 | only an erase completes a request, from PROCESSING with an empty wallet, and it leaves no active session of the user |
| DeletionMoney.MoveBalances | src/modules/wallet/wallet.service.ts:180-306 | one movement changes one balance by its ledger line and keeps every balance equal to its ledger and not negative |
| DeletionMoney.ConfirmBooks | src/modules/account-deletion/account-deletion.service.ts:631-716 | a settlement debits the whole balance once - its key is never already used - and leaves zero |
| DeletionMoney.BooksAlwaysBalance | src/modules/account-deletion/account-deletion.service.ts:631-716 | in every run balance equals credits minus debits, and each request has at most one settlement debit, equal to its settled amount |
| DeletionMoney.NoSessionWhileLeaving | src/modules/account-deletion/account-deletion.service.ts:863-878 | with atomic logins an active session's user has no PENDING, PROCESSING or COMPLETED request |
| DeletionRaces.AccountedAlways | src/modules/account-deletion/account-deletion.service.ts:723-837 | in every run each request has an account, and a completed one a deleted account |
| DeletionRaces.SplitLoginLeaks | src/modules/auth/auth.service.ts:239-265 | whatever runs between a login's check and its session write, the session is a leaving user's if and only if a request made since the check is not cancelled by then |
| DeletionRaces.LoginRacesRequest | src/modules/auth/auth.service.ts:239-265 | such a run exists from every state where the login check passes |
| DeletionSweep.OneSweeper | src/redis/redis.service.ts:155-179 | sweepers inside their leases are one and the same |
| DeletionSweep.LeasedStep | src/redis/redis.service.ts:155-179 | every step keeps each sweeper the holder of an unexpired lease |
| DeletionSweep.SoloStep | src/modules/account-deletion/account-deletion.service.ts:296-435 | every step keeps requests, rows in the sweeper's hands and claim counts consistent |
| DeletionSweep.SoloAlways | src/modules/account-deletion/account-deletion.service.ts:296-435 | and so does every run |
| DeletionSweep.HeldIsOpen | src/modules/account-deletion/account-deletion.service.ts:631-660 | an unsettled hold sits on an open request no failure stopped, so settlement may ignore the status |
| DeletionSweep.CompletedIsSettled | src/modules/account-deletion/account-deletion.service.ts:731-757 | an erase never sees an unsettled hold or a stopped request, and completes only with an empty wallet |
| DeletionSweep.ClaimsAreBounded | src/modules/account-deletion/account-deletion.service.ts:366-410 | between administrator retries a request is claimed at most ten times plus once per lost outcome, and a stopped request is in no sweeper's hands |
| DeletionRaces.MisplacedHoldIff | src/modules/account-deletion/account-deletion.service.ts:250-260 | in every state a run from the start reaches, whatever holds were misplaced before: some continuation of a successful cancel has an unsettled hold on the request if and only if it had one, or a sweeper carries its row, unread or weighed with money, and it can take a hold |
| DeletionRaces.RowsOwnedAlways | src/modules/account-deletion/account-deletion.service.ts:299-323 | in every run the rows any sweeper carries are distinct requests, each with its own user |
| DeletionRaces.LateCancelMisplacesHold | src/modules/account-deletion/account-deletion.service.ts:332-364 | for every student a run from the start ends with a hold on a cancelled request, with the cancel before the hold and with the cancel after it |
| DeletionRaces.NeverHeld | src/modules/account-deletion/account-deletion.service.ts:350-362 | a cancelled request out of every sweeper's reach is never held |
| DeletionRaces.CarriedComes | src/modules/account-deletion/account-deletion.service.ts:325-364 | a sweeper that still carries a request's row can be driven to place the hold, whatever rows come first |
| DeletionRaces.MisplacedIsPaid | src/modules/account-deletion/account-deletion.service.ts:631-716 | the settlement of a misplaced hold is accepted and takes the wallet to zero |
| DeletionService.AccountDeletionService.SelectDue | src/modules/account-deletion/account-deletion.service.ts:299-323 | at most 25 due rows, oldest first, and no due row left out precedes one taken |
| DeletionService.AccountDeletionService.RequestDeletion | src/modules/account-deletion/account-deletion.service.ts:167-229 | refuses exactly whoever is no student, then exactly whoever is missing or deleted, with nothing changed; otherwise creates a request and ends all sessions, or returns the open one unchanged |
| DeletionService.AccountDeletionService.CommitCancel | src/modules/account-deletion/account-deletion.service.ts:255-260 | cancels exactly when still PENDING and dated after the captured clock |
| DeletionService.AccountDeletionService.RetryFailed | src/modules/account-deletion/account-deletion.service.ts:471-489 | re-queues exactly a pending request that failure stopped |
| DeletionService.AccountDeletionService.CancelFailed | src/modules/account-deletion/account-deletion.service.ts:497-516 | cancels exactly a pending request that failure stopped |
| DeletionService.AccountDeletionService.Debit | src/modules/wallet/wallet.service.ts:180-306 | refuses a non-positive amount and an overdraft, answers a replay first, and otherwise moves balance and ledger together, once per idempotency key |
| DeletionService.AccountDeletionService.ConfirmSettlement | src/modules/account-deletion/account-deletion.service.ts:631-716 | succeeds exactly for an unsettled hold and the current balance, and then equals the settlement transaction; each of the three refusals has its exact case |
| DeletionService.AccountDeletionService.ClaimRow | src/modules/account-deletion/account-deletion.service.ts:366-384 | a pending row is taken conditionally, an interrupted one always, as the claim step does |
| DeletionService.AccountDeletionService.EraseAccount | src/modules/account-deletion/account-deletion.service.ts:723-837 | all of the erase or nothing, as the erase step does |
| DeletionService.AccountDeletionService.SweepRow | src/modules/account-deletion/account-deletion.service.ts:325-409 | the loop body, interleaved with others, is a run; what it adds to the counters is what its own claim, hold and erase steps did |
| DeletionService.AccountDeletionService.Sweep | src/modules/account-deletion/account-deletion.service.ts:296-435 | reads a whole batch of the rows due, handles every one of them, and reports exactly the effects of its own steps in the run |
| DeletionService.AccountDeletionService.Tick | src/modules/account-deletion/account-deletion.scheduler.ts:62-79 | no step while another lease runs; otherwise a run that takes the lock first, reads a whole batch of the rows due then, gives the lock back last, and is reported as it happened |
| RevenueSeries.RevenueByDay | src/modules/analytics/analytics.service.ts:282-393 | one point per active day in order, each the day's sums; the totals add up to the dashboard's total and every column to its figure of the period |
| RevenueSeries.MergedRow | src/modules/analytics/analytics.service.ts:341-378 | a day missing from one grouped result is that result's zeroes |
| RevenueSeries.FirstRedemption | src/modules/analytics/analytics.service.ts:529-541 | the earliest redemption is in the window if and only if one is and none came before |
| RevenueSeries.SalesAgree | src/modules/analytics/analytics.service.ts:312-326 | dated card sales sum and count to the dashboard's figures |
| RevenueSeries.DaysSplitSum | src/modules/analytics/analytics.service.ts:297-309 | grouping by day over the covered days loses and doubles nothing |
| RevenueSeries.SeriesMeetsDashboard | src/modules/analytics/analytics.service.ts:582-590 | any series of the range adds up to `totalInPeriod`, and gross, net, card sales, their count, top-ups and their count each to the figure filtered from the books |
| RevenueSeries.TransactionsArePaymentsIff | src/modules/analytics/analytics.service.ts:504-508 | the series' transactions equal `transactionsInPeriod` if and only if every line of the window is a payment |
| RevenueSeries.PeriodsAddUp | src/modules/analytics/analytics.service.ts:519-550 | the totals of consecutive periods add up to the total of their span, however it is cut |
| RevenueSeries.SoldOnce | src/modules/analytics/analytics.service.ts:529-541 | two successive periods never both count a card |
| RevenueSeries.SoldSomewhere | src/modules/analytics/analytics.service.ts:529-541 | a card is counted in one of the periods exactly when it is counted in their span |
| RevenueSeries.AllTimeSales | src/modules/analytics/analytics.service.ts:523-528 | a window around all redemptions gives the all-time figure |
| Rollup.AnalyticsProcessor.Process | src/jobs/processors/analytics.processor.ts:28-126 | the upsert loop writes exactly the fresh row of each course of the day and counts them |
| Rollup.JoinIsFresh | src/jobs/processors/analytics.processor.ts:79-118 | joining three grouped results with zeroes gives the row the raw events give |
| Rollup.CourseIsTouched | src/jobs/processors/analytics.processor.ts:86-90 | a course is rolled up exactly when it has an event of any kind on the day |
| Rollup.RunsConsistent | src/jobs/processors/analytics.processor.ts:92-122 | in every run of events, removals and rollups a clean day's rows are fresh wherever there are events |
| Rollup.OnlyRemovalsOrphan | src/jobs/processors/analytics.processor.ts:92-122 | without removals no row loses all its events |
| Rollup.GroupsAddUp | src/jobs/processors/analytics.processor.ts:50-59 | sums over course-and-day groups equal sums over raw events, viewers counted once per course and day |
| Rollup.OverviewIsRaw | src/modules/analytics/analytics.service.ts:66-69 | once each day of a span was rolled up after its last event, in any order and number, the overview equals the raw figures, as long as no row of the span lost all its events |
| Rollup.RerunCorrectsIff | src/jobs/processors/analytics.processor.ts:10-18 | a re-run corrects a number if and only if the course still has a row that day or the old number was zero |
| Rollup.CleanDayIsRightIff | src/jobs/processors/analytics.processor.ts:10-18 | in every run, on a clean day a number is right if and only if its course has an event that day or it is zero |
| Rollup.StaleRow | src/jobs/processors/analytics.processor.ts:10-18 | a run after which the day is clean and a removed event still counts |
| CodesTheorems.StepKeeps | src/modules/codes/codes.service.ts:513-588 | every step keeps counters, rows, statuses and revenue rows consistent |
| CodesTheorems.NeverOversold | src/modules/codes/codes.service.ts:541-574 | in every run the counter is the number of redemption rows, at most the maximum, and no student redeems a card twice |
| CodesTheorems.RevenueFollowsRedemptions | src/modules/wallet/wallet.service.ts:329-442 | recharge cards book the paid amount once per redemption, access cards never |
| CodesTheorems.RedeemedFromActive | src/modules/codes/codes.service.ts:537-547 | every redemption starts from ACTIVE although only REVOKED is tested |
| CodesTheorems.RechargedFromActive | src/modules/wallet/wallet.service.ts:348-358 | so does every recharge |
| CodesTheorems.ClosedForGood | src/modules/codes/codes.service.ts:862-946 | a card that stopped being active never changes again |
| CodesTheorems.FrozenForGood | src/modules/codes/codes.service.ts:174-197 | scope, maximum, price and dates never change and no redemption is taken back |
| CodesTheorems.CardUnlocksWhatWasFrozen | src/modules/codes/codes.service.ts:1357-1437 | an issued card redeems against exactly its frozen courses, with exactly its frozen sections or with whole courses |
| CodesTheorems.IssuedScopeIsLive | src/modules/codes/codes.service.ts:290-429 | an issued card unlocks something, and the courses and sections it freezes are exactly those that were live and asked for |
| CodesTheorems.IssueRefusedIff | src/modules/codes/codes.service.ts:290-429 | issuing fails exactly for a missing, unknown, deleted or empty target |
| CodesTheorems.RedeemIffPreview | src/modules/codes/codes.service.ts:453-500 | redemption and preview agree up to the scope and a teacher card that also names a course |
| CodesTheorems.PreviewIsExactIff | src/modules/codes/codes.service.ts:466-485 | for an issued card a valid preview is followed by redemption exactly if it is no teacher card or the course is frozen on it |
| CodesService.CodesService.RedeemInTransaction | src/modules/codes/codes.service.ts:513-588 | answers as the checks in their order say, and writes row and counter together or nothing |
| CodesService.CodesService.RedeemRechargeCode | src/modules/wallet/wallet.service.ts:329-442 | answers with the amount or the error of the first check that fails, and writes card, redemption and revenue row together or nothing |
| CodesService.CodesService.ReadForRevoke | src/modules/codes/codes.service.ts:862-881 | the read before a revocation refuses a missing card and a card that is no longer ACTIVE |
| CodesService.CodesService.CommitRevoke | src/modules/codes/codes.service.ts:883-895 | changes the card exactly if it is still ACTIVE |
| CodesService.CodesService.RevokeBatch | src/modules/codes/codes.service.ts:913-936 | refuses an unknown batch, and otherwise revokes exactly the batch's active cards and counts them |
| CodesService.CodesService.ExpireLapsedCodes | src/modules/codes/codes.service.ts:938-946 | expires exactly the active lapsed cards and counts them |
| CodesService.CodesService.GenerateBatch | src/modules/codes/codes.service.ts:130-240 | new candidates become cards with the frozen scope, existing cards are untouched, and the count equals the request exactly if no candidate was taken |
| LadderTheorems.ResolveIsBest | src/modules/catalog/catalog.service.ts:417-489 | resolution answers with the best eligible structure by own department, active pin, faculty, university, platform and age, and with none exactly if there is none |
| LadderTheorems.BestIsUnique | src/modules/catalog/catalog.service.ts:453-462 | the order leaves one best structure |
| LadderTheorems.AcceptedIff | src/modules/catalog/academic-placement.ts:172-224 | a rung is accepted exactly when it is in the ladder of every selected department, or of faculty or university where none is selected |
| LadderTheorems.InLadderIff | src/modules/catalog/academic-placement.ts:194-216 | which is to say that the best structure is the rung's own |
| LadderTheorems.OrderAndRepeatsDoNotMatter | src/modules/catalog/academic-placement.ts:183-192 | order and repetition of departments change neither verdict nor error |
| LadderEdits.PinTakesEffect | src/modules/catalog/catalog.service.ts:549-617 | a pinned faculty, and its departments without an own ladder, resolve to the active structure they were pinned to |
| LadderEdits.PinsElsewhereStay | src/modules/catalog/catalog.service.ts:549-617 | everyone else resolves as before, and a released faculty as if never pinned |
| LadderEdits.ReplaceThenRestore | src/modules/catalog/catalog.service.ts:726-791 | replacing and putting back gives the same ids with the same contents active, and nothing else |
| LadderEdits.ReplacingKeepsPlacements | src/modules/catalog/catalog.service.ts:726-791 | rungs in use stay accepted; where active ones are required, exactly those resubmitted |
| LadderEdits.CatalogService.ResolveAcademicStructure | src/modules/catalog/catalog.service.ts:417-489 | building candidates and searching them equals the resolution function |
| LadderEdits.CatalogService.SetStructureFacultyOverrides | src/modules/catalog/catalog.service.ts:549-617 | wanted faculties are moved here, unwanted ones of this structure released, others untouched; errors exactly for an unknown structure or faculty |
| LadderEdits.CatalogService.ReplaceStructureEntries | src/modules/catalog/catalog.service.ts:737-791 | with others replacing entries between its read and its transaction: every id keeps its order, none is deleted, and exactly the submitted orders are active if and only if no other active rung came in between; errors exactly as listed |
| LadderEdits.ReplacedIff | src/modules/catalog/catalog.service.ts:758-773 | retiring what the read selected is the whole replacement if and only if every active unlisted rung was there at the read |
| LadderEdits.CatalogService.CheckAcademicStructure | src/modules/catalog/academic-placement.ts:78-162 | each field is reported exactly when it is wrong |
| LadderEdits.CatalogService.CheckDepartments | src/modules/catalog/academic-placement.ts:124-157 | which of the five department problems is reported, and exactly when |
| Cache.StepKeeps | src/redis/redis.service.ts:71-137 | every step keeps cached values and loads true at their reading time |
| Cache.StalenessIsBounded | src/redis/redis.service.ts:126-137 | a cached answer was true no longer ago than time to live plus load time, in every interleaving |
| Cache.LoadIsRecent | src/redis/redis.service.ts:130-137 | a loaded answer was true while its load ran |
| Cache.CurrentAfterBustIff | src/modules/catalog/catalog.service.ts:830-832 | after a bust all later reads are current, until the next change, if and only if no load carries an old answer over it |
| Cache.OldLoadShows | src/redis/redis.service.ts:134-136 | an overlapping load stores its old answer and the next lookup finds it |
| Cache.RedisService.Remember | src/redis/redis.service.ts:126-137 | a hit is returned unchanged; otherwise, cache or no cache, the answer was true during the call |
| Cache.RedisService.DelByPattern | src/redis/redis.service.ts:99-124 | the scan deletes batch by batch among the steps of others and counts what each deletion removed; a reported key that is cached at the end was stored after its own deletion |
| Cache.ComesBack | src/redis/redis.service.ts:130-137 | a key that comes into the cache in a run was stored by a load of that key |
| Cache.ScanLeavesOnlyStored | src/redis/redis.service.ts:99-124 | if the store reports every matching key that is there throughout a scan, a matching key cached after a whole scan was stored while it ran |
| Cache.WholeScanMakesCurrent | src/modules/catalog/catalog.service.ts:830-832 | a whole scan during which nobody stores a matching key makes every later read of it current, as long as no load carries an old answer over it |
| GateModel.PendingRowsIn | scripts/migration-gate.ts:275-286 | the loop over lines equals its specification |
| GateModel.PendingHeaderIn | scripts/migration-gate.ts:241-272 | the loops over the list equal their specification |
| GateTheorems.RowGivesName | scripts/migration-gate.ts:275-286 | a printed table row gives back its name |
| GateTheorems.ListGivesNames | scripts/migration-gate.ts:241-272 | a printed list gives back its names, with any blank lines above and either line ending |
| GateTheorems.PendingRoundTrip | scripts/migration-gate.ts:311-319 | a report with a table, a list or both gives back exactly its names, sorted and each once |
| GateTheorems.PendingNeverPasses | scripts/migration-gate.ts:360-397 | a printed report with pending migrations never exits 0, and exits 1 with exactly the names unless there is drift |
| GateTheorems.PassesIff | scripts/migration-gate.ts:343-408 | exit 0 exactly with an up-to-date phrase, no drift phrase and no readable pending name |
| GateTheorems.UnreadableDeclarationPassesIff | scripts/migration-gate.ts:399-420 | every printed report whose declaration is followed by a line that is no name has no pending names, and passes exactly if it also says that the schema is current and reports no drift |
| GateTheorems.UnreadableDeclarationPasses | scripts/migration-gate.ts:399-420 | and there is such an output |
| Retry.WithSerializableRetry | src/database/serializable-retry.ts:77-111 | which attempt decides and what the call answers; at most one commit, one when it returns, and when it throws only if an acknowledgement was lost; total wait bounded |
| Retry.WithDatabaseRetry | src/database/transient-db-error.ts:81-102 | which attempt ends it, the state it leaves whatever others write in between, and the total wait; with nobody else writing, an idempotent write ends in the state of one application however many acknowledgements are lost |
| Retry.OneApplication | src/database/transient-db-error.ts:76-79 | the same by induction on the attempts |
| Retry.LostAckOverwritesIff | src/database/transient-db-error.ts:76-79 | after a lost acknowledgement what others wrote survives the second application if and only if the write does not change it |
| Retry.WaitIsBounded | src/database/transient-db-error.ts:64-80 | the waits after n attempts are at most base times two to the n less one, and n times the cap |
| Retry.DefaultWaits | src/database/transient-db-error.ts:71-74 | 7500 ms at the database defaults, 75 ms at the transaction defaults |

## Left out

- JWT verification, hashing and device binding before a refresh presents its token; a hash is injective here.
- The EXPIRED session status: the schema declares it and nothing writes it.
- Pruning of sessions and tokens by maintenance, and the lockout accounting of sign-in.
- RefreshTheorems.UnusedTokensConserved: sessions revoked elsewhere (device limits, administrators) are the step `RevokeSessions`; which of them the platform picks is not modelled.
- DeletionService.AccountDeletionService.Tick: a sweep that throws, which gives its lock back and reports nothing, is the step `Crash` with `thrown`; the method runs a sweep to its end.
- DeletionService.AccountDeletionService.EraseAccount: the personal fields, files, devices and grants that an erase clears are one flag on the account, because none of them is read by the protocol; the transaction is atomic, so a credit that commits between its balance read and its end is not modelled.
- DeletionService.AccountDeletionService.RequestDeletion: the password check, and the second look-up after a lost insert, which returns the row that won.
- DeletionService.AccountDeletionService.ConfirmSettlement: runs as one step; the serializable retry around it is in `Retry`.
- Audit rows, notifications, outstanding amounts and error texts of deletion requests.
- DeletionMoney.NoSessionWhileLeaving: logins are atomic there; the login as the code has it is `DeletionRaces.SplitLoginLeaks`. Administrative deletion of accounts is not modelled.
- RevenueSeries.RevenueByDay: currencies are not distinguished, decimal amounts are exact piastres, and the three queries read one state of the books.
- Rollup.AnalyticsProcessor.Process: the three queries and the upserts of one job act at one moment, and the three event tables are one sequence with three kinds of rows; the currency column is omitted.
- Rollup.OverviewIsRaw: for a window that starts at midnight UTC; the day column has no time, so other starts depend on how the driver truncates the parameter.
- CodesService.CodesService.GenerateBatch: candidates are given and distinct; drawing random ones ends only with probability one. Price aliases and audit text are omitted.
- CodesService.CodesService.RedeemRechargeCode: the wallet credit is the movement in `DeletionMoney.MoveBalances`; a malformed stored amount is a missing one.
- CodesTheorems.IssuedScopeIsLive: the order of a part's frozen sections is that of the table, not of `sortOrder`.
- LadderTheorems.ResolveIsBest: ids are compared by code unit, as the service sorts them; the database's collation for ties in creation time may differ.
- LadderEdits.CatalogService.ReplaceStructureEntries: orders are integers.
- LadderEdits.CatalogService.SetStructureFacultyOverrides: checks and the three statements are one step.
- Cache.RedisService.Remember: a loader reads the database at one moment, and an answer is never null, as null would count as a miss.
- Cache.RedisService.DelByPattern: that a scan reports every matching key present throughout is a guarantee of the store; it is the hypothesis `ReportsAll` of the lemmas about whole scans.
- GateTheorems.PendingRoundTrip: lines other than rows and list contain neither "pending migration" nor "following", case ignored; white space and case folding are those of ASCII.
- Starting the status command and choosing between its exit code and its output.
- Retry.WithSerializableRetry: attempts are integers, and delays are non-negative.
- Retry.WithDatabaseRetry: which errors count as transient is an input.
- Controllers, request validation, translations, storage, video processing, push delivery and the dashboard client.
