# Verification of the OMEGA controller's rollout, configuration and learning core

OMEGA is a controller for fleets of OpenWrt devices. This project models, in
Dafny, the parts of it whose correctness depends on many small guarded steps
fitting together, and proves what they keep over every run.

**Rollouts and changesets** (`ChangeSets`, `DeviceSlot`, `Controller`, `Store`,
`Worker`, `WorkerLoop` and the theorem modules). A device row holds at most one
pending operation or changeset, the last agent reports and three generation
counters. A rollout row moves through DRAFT, RUNNING, QUEUED and terminal
statuses under a claim token, a worker token with a lease deadline, a cursor and
a result list. Every exported call is one atomic step on these tables. `Store`
holds the tables as an object whose methods update rows in place, and
`WorkerLoop` holds the worker's loops; each method is proved equal to its step.
A *run* is any finite sequence of steps, so it is any interleaving of draft
creators, claimers, agents, operators and workers; in `StagedRollout` workers
may also be spawned, crash and be replaced between any two of their own database
calls. The main results:

- a worker queues a device only when every earlier device of the order succeeded
  and nothing else is in flight, so Gateways come last (`WorkersQueueInOrder`);
- over every run the placements of a changeset balance the reports that made
  its row forget it, so retries, crashes and re-claims place it at most once
  (`PlacementsBalance`, `ExactlyOnceInEveryRun`, `CrashesNeverApplyTwice`), and
  the same holds for operations (`OperationsBalance`);
- leases are exclusive per site and every worker write carries the latest token
  (`RunsKeepLeases`, `WritesCarryTheLatestToken`, `DeposedWorkerNeverWrites`);
- reports climb a ladder, recovery is a permanent fence, and a claim is all or
  nothing (`ReportLadder`, `RecoveryFenceInEveryRun`, `ClaimIsAllOrNothing`);
- the changeset that a worker queues is the plan of its device, nothing lost,
  added or reordered, and its hash covers all of it (`QueuedChangeSetIsThePlan`,
  `ContentIsThePlan`, `OneHashOnePlan`);
- a row is what its history leaves: slot, last reports, rollout status and both
  success counters follow from the placements and stored reports of any run
  (`HistoryInEveryRun`, `CountersInEveryRun`, `NoCommitNoSuccess`);
- a lease lives exactly until the deadline of its latest grant, a takeover
  resumes at the largest cursor ever written, and after the first lease only
  worker writes touch the results (`LiveUntilItsDeadline`, `TakeoverResumes`,
  `ResultsAreLastWritten`);
- a claim leaves its site with one rollout that may act, no site ever has two
  claims, and verdicts are final (`ClaimLeavesOne`, `OneHolderInEveryRun`,
  `VerdictsAreFinal`).

**UCI text and drift** (`UciPrinter`, `UciShow`, `UciLines`, `UciHost`,
`UciDrift`, `UciIndex`, `UciPlan`, `UciFilter`). Printed commands are read back by
a shell as the same command, `uci show` output parses back to the sections it was
printed from, and any output parses to what its lines say. MAC lists parse back
to their addresses, `@type[n]` and `@type[-n]` name the section with n of its
type before it or n - 1 behind it, and the drift check passes exactly when
applying the plan would change nothing. `Patterns` has the validators' regular
expressions as data, and the character rules accept what they match.

**Threat-list filter** (`ThreatCidr`, `ThreatRanges`). The CIDR filter is exact
although one helper overwrites the bytes of the network it is testing; a network
passes exactly when none of its addresses is reserved.

**Sentinel learning** (`Sentinel` and the modules named after it). Memories,
supersession, counter-evidence, the retention sweep, and skills that are
promoted on distinct cases. What each call asks for is stated in plain terms,
trust was checked in every run (`TrustWasChecked`, `TrustIsEarned`), no claim and
no skill name lives twice (`ClaimsStayUnique`, `NamesStayUnique`), and a replay
never profits from evidence captured after its time (`NoHindsight`).

## What the proofs show about the code

Some properties that the documentation suggests hold only under a condition;
each is stated as an if-and-only-if or with a concrete run.

- **Workers stop at the second device.** A terminal report updates only rollouts
  that are QUEUED (`internal/database/device_change_sets.go:547`), and a worker's
  claim makes the rollout RUNNING for good. Once a worker has claimed it, no
  device's result changes (`ClaimedProgressIsFrozen`), so from a draft no worker
  ever queues past the second device (`WorkersStopAtTheSecondDevice`); the
  second one it does queue (`SecondDeviceIsQueued`).
  `docs/ARCHITECTURE.md:46-52` describes workers that go on to later phases.
- **Two orders.** The orchestrator, which prepares the first phase, compares the
  Gateway role exactly, the worker in any letter case. Their orders are equal if
  and only if every Gateway in another spelling stands, by id, behind the plainly
  spelled devices that are none and before those that are
  (`OrdersAgreeExactly`). The defect is latent: the only writer of the role
  column admits three plain spellings
  (`internal/api/handlers/site_orchestrator.go:859`), and for those the orders
  are always the same (`StoredRolesKeepOneOrder`).
- **Two clocks.** A live worker lease also looks fresh to the twenty-minute fence
  in every reachable state if and only if leases last at most twenty minutes.
- **Two validators.** The service accepts changesets that the database refuses:
  apart from an explicit generation zero, exactly those with an `ensure_host` or
  `delete_all` command. The other way round the database accepts commands
  that stand in the operation of another namespace; the service does not
  (`ParserAcceptedUnlessMisplaced`).
- **Rollout status.** The status computed from the other entries equals a full
  recount exactly when entries with missing keys are harmless. An entry can do
  harm only if the caller that prepared the rollout's results left out its device
  or its changeset id.
- **Late retries.** A row remembers the changeset in its slot and the one last
  reported. A remembered changeset is never placed again, and it is forgotten
  exactly when a report about another one is stored: on a row that is ready
  otherwise, a retry is placed if and only if such reports ended every memory of
  the changeset (`RetryIsPlacedExactly`, `RetryInEveryRun`).
- **Device ids in another letter case.** Queueing compares a changeset's device
  id with the row in any letter case, reports compare it exactly. A pending
  changeset can be ended by some report if and only if it spells the id as the
  row does (`PendingCanEndExactly`); otherwise it blocks the device in every run
  (`MisspelledIsStuckInEveryRun`).
- **Repeated reports.** A stored report is accepted again and changes nothing,
  except that a final one in another spelling of the device id, or an operation's
  without plan hash at generation zero, is not recognised the second time; it
  changes nothing either (`RepeatedReportIsHarmless`,
  `RepeatedOperationReportIsHarmless`).
- **Two rollouts at work.** A draft's claim looks for RUNNING rollouts and a
  worker's claim for live leases, so a QUEUED rollout and a newer draft of its
  site can both be RUNNING (`QueuedRolloutIsOverlapped`). They then fence each
  other: nothing is queued on the site for either (`OverlapBlocksTheSite`).
- **Eight operations.** Namespaces are distinct and there are five, so the limit
  of eight operations is never reached (`AtMostFiveOperations`).
- **Operation retries.** An operation is forgotten exactly when another one is
  placed. A retry without a generation is told the generation of the first call
  if and only if no report without one became the last word about the operation;
  otherwise it is told zero (`RetryIsToldExactly`). After a report without a plan
  hash a different plan under the same id is taken for this one
  (`GenerationIsLost`).
- **Section names.** The drift check compares section references as texts. After
  a tidy plan was applied it finds every command satisfied if and only if, for
  each option, the commands that write it under any name leave what those under
  this name plan (`AppliedPlanMatchesExactly`).
- **Preflight filter.** Dropping satisfied commands keeps a tidy plan's effect if
  and only if no dropped command belongs to an option that still lacks its
  planned value. A list that must be rebuilt loses the values it already had:
  `ResetPlanLosesAServer` is a DNS server list that ends up without one of its
  two planned servers.
- **Supersession.** The code compares memory ids as texts. A supersession keeps
  the forest if and only if the ids name different rows; a memory named in two
  spellings supersedes itself.
- **Retention.** Cited cases survive sweeps when references are written in the
  database's spelling; in another spelling they are accepted but not protected.
  A superseded memory that stays can also block the deletion of every case.
- The second and third capability tests of the queueing update add nothing to
  the first: one is implied by it, the other is never null. Nor does its test of
  the last operation's state: no reachable row has an empty slot behind an
  operation in RECOVERY_REQUIRED (`StepKeepsSlot`).

## Reading guide

`Common` has shared types and text rules. A module of functions comes before the
module that proves theorems about it. Device rows are studied alone first
(`DeviceSlot`, `RowTheorems`, `OnceOnly`, `OperationOnce`); `RowProjection` shows
that every run of the controller, seen from one row, is a run of that row, and
lifts the theorems; `RowHistory` and `Counters` say what a row's history leaves.
Rollout ids are row numbers, tokens come from a counter, and the clock never goes
back. `ChangeSets.Env` and `Sentinel.Env` collect the functions left open: the
two SHA-256 digests, IP parsing, UUID texts, the tool registry and keyword
matching.

## Model

| member | source | states |
|---|---|---|
| ChangeSets.ParseChangeSet | internal/database/device_change_sets.go:88-146 | the parser accepts exactly the acceptable documents, whose plan hash covers every command (`PlanHash.ContentIsThePlan`), and returns their identity |
| ChangeSets.CheckOperations | internal/database/device_change_sets.go:118-125 | the loop with its map of seen namespaces accepts exactly well-formed operations on distinct namespaces |
| ChangeSets.CheckHealthChecks | internal/database/device_change_sets.go:148-155 | every target is an IP address or a host name of at most 253 characters |
| ChangeSets.CheckCommands | internal/database/device_change_sets.go:129-135 | every command of every operation is acceptable |
| ChangeSets.BoundChangeSetParsesAgain | internal/database/device_change_sets.go:285-288 | the document stored with its reserved generation parses again, as the same identity at that generation |
| ChangeSets.ValidateDeviceChangeSet | internal/services/device_change_set.go:124-163 | the service validator accepts exactly the documents it promises to, under the same hash |
| ChangeSets.NewDeviceChangeSetForRolloutOperations | internal/services/device_change_set.go:79-100 | the derived changeset, with stable ids per operation, is returned exactly when it validates |
| ChangeSets.RolloutChangeSetIsWellSigned | internal/services/device_change_set.go:79-99 | derived ids are valid, and the plan hash written into the document is the digest of its final content |
| ChangeSets.RolloutIdentityIsCaseBlind | internal/services/device_change_set.go:80-82 | the changeset id does not depend on the letter case of rollout or device id |
| ChangeSets.ServiceAcceptedUnlessScripted | internal/database/device_change_sets.go:157-177 | of what the service accepts without an explicit generation zero, the database refuses exactly changesets with a scripted command |
| ChangeSets.ParserAcceptedUnlessMisplaced | internal/database/device_change_sets.go:129-135 | of what the database accepts, the service would refuse exactly changesets with a command in the operation of another namespace |
| PlanHash.ContentIsThePlan | internal/database/device_change_sets.go:179-205 | two changesets have the same hashed content if and only if health checks, policy and number of operations agree, and at every place namespace, commands and observed hash |
| PlanHash.OneHashOnePlan | internal/database/device_change_sets.go:136-138 | where the digest does not collide, two acceptable changesets with one plan hash have the same operations but for their ids, the same health checks and the same policy |
| PlanHash.OnePlanOneHash | internal/database/device_change_sets.go:136-138 | conversely one plan has one hash, whatever ids and generation are |
| PlanHash.DerivedCarriesThePlan | internal/services/device_change_set.go:79-99 | the changeset a rollout derives carries the given operations, health checks and policy, and only fills in ids and hash |
| PlanHash.ChangeSetIdsTellApart | internal/services/device_change_set.go:80-82 | different rollouts or devices get different changeset ids, unless the digests' prefixes collide |
| PlanHash.OperationIdsTellApart | internal/services/device_change_set.go:84-87 | so do different operations of one changeset, by their index |
| PlanHash.AtMostFiveOperations | internal/database/device_change_sets.go:109-125 | an accepted changeset has at most five operations, so the limit of eight is never reached |
| Patterns.SectionsAgree | internal/database/device_change_sets.go:73-73 | the rule for section names accepts exactly what the pattern matches |
| Patterns.NamesAgree | internal/database/device_change_sets.go:72-72 | so does the rule for names |
| Patterns.HealthChecksAgree | internal/database/device_change_sets.go:148-155 | and the rule for health targets that are no addresses |
| Patterns.IdentitiesAgree | internal/database/device_operations.go:68-92 | the loops over ids, device ids and hashes accept exactly the texts of these characters and lengths |
| DeviceSlot.StepKeepsSlot | internal/database/device_change_sets.go:283-316 | every queue or report step keeps one item in the slot, its generation equal to the desired one, an empty slot only after a terminal report, and generations that never fall |
| DeviceSlot.RunKeepsSlot | internal/database/device_operations.go:119-147 | the slot and generation invariant over any run of a row |
| RowTheorems.RecoveryFenceIsPermanent | internal/database/device_change_sets.go:301-306 | after RECOVERY_REQUIRED no run of the row queues anything, moves the desired generation or replaces that report |
| RowTheorems.ReportLadder | internal/database/device_change_sets.go:440-509 | between two queue steps stored reports never fall in rank, terminals absorb, COMMITTED never follows ROLLING_BACK, and at most five states occur |
| RowTheorems.ForeignReportChangesNothing | internal/database/device_change_sets.go:453-465 | a report about anything but the current item changes nothing |
| Counters.CountersAreLargestCommitted | internal/database/device_change_sets.go:487-496 | over any run of a row the observed and the last successful generation are the largest of their start and the generations of the stored COMMITTED reports, of changesets and operations |
| Counters.CountersInEveryRun | internal/database/device_operations.go:278-287 | the same over every run of the controller |
| Counters.NoCommitNoSuccess | internal/database/device_change_sets.go:487-496 | without a COMMITTED report both counters stay as they are, whatever is queued, rolled back or restored |
| RowHistory.FlagIsLatestWord | internal/database/device_change_sets.go:484-484 | the rollout status of a row is the latest word of its history: queued, a reported state while not RUNNING, or an explicit write |
| RowHistory.LastReportIsLatest | internal/database/device_change_sets.go:481-481 | the last changeset status is the latest stored report, word for word |
| RowHistory.SlotHoldsLatest | internal/database/device_change_sets.go:482-483 | the slot holds what was placed last, until a final report about it is stored |
| RowHistory.HistoryInEveryRun | internal/database/device_operations.go:266-275 | in every run of the controller slot, last reports and rollout status are those that the row's own history leaves |
| RowHistory.ReportStoredExactly | internal/database/device_change_sets.go:440-509 | a report is stored exactly when it is complete, comes from the device, speaks of the current changeset, and its state may follow the last one |
| RowHistory.OperationReportStoredExactly | internal/database/device_operations.go:235-304 | an operation's report is stored exactly when it is complete and names the pending operation, or the last one unless that ended in another state |
| RowHistory.OperationStatesAre | internal/database/device_operations.go:94-101 | in every run operation statuses are in the six states of operations, and reports in these are the ones that are read |
| RowHistory.RepeatedReportIsHarmless | internal/database/device_change_sets.go:458-476 | a stored report changes nothing when it comes again, and is accepted again exactly unless it is final and spells the device id otherwise |
| RowHistory.RepeatedOperationReportIsHarmless | internal/database/device_operations.go:255-265 | the same for operations, except at an explicit generation zero without plan hash |
| RowHistory.PendingCanEndExactly | internal/database/device_change_sets.go:453-457 | some report can end a pending changeset if and only if it spells the device id as the row does |
| RowHistory.MisspelledIsStuckInEveryRun | internal/database/device_change_sets.go:443-457 | a changeset that spells it otherwise stays pending in every run, and the desired generation stays too |
| OnceOnly.PlacementsBalance | internal/database/device_change_sets.go:299-306 | over any run of a row the placements of a changeset balance the stored reports that made the row forget it, whatever else is queued |
| OnceOnly.ExactlyOnce | internal/database/device_change_sets.go:348-384 | in any run, with operations and other changesets in between, a changeset that is not forgotten is placed at most once and all successful attempts return one generation |
| OnceOnly.RaisedByPlacements | internal/database/device_change_sets.go:285-292 | attempts to queue a changeset raise the desired generation by one per placement when it is unbound, and never when it is bound |
| OnceOnly.RetryIsPlacedExactly | internal/database/device_change_sets.go:283-316 | after any run, an attempt is placed if and only if every guard holds (document, device, owner, capability, empty slot, no recovery, status, fence, generation) and reports about other changesets ended every memory of it; it then only fills the slot, and otherwise changes nothing |
| OnceOnly.AnsweredExactly | internal/database/device_change_sets.go:325-384 | a call succeeds exactly when it is placed or repeats the current changeset with its plan and no other generation, and returns the generation the row holds for it |
| OnceOnly.RetriesAlonePlaceOnce | internal/database/device_change_sets.go:283-317 | where no other changeset is queued, retries mixed with operations and reports place a changeset at most once, from any state |
| OnceOnly.LateRetryIsPlacedAgain | internal/database/device_change_sets.go:305-305 | a family of such runs: another changeset was queued and committed, and a retry of the first is placed again |
| OperationOnce.OperationsBalance | internal/database/device_operations.go:119-147 | over any run of a row the placements of an operation balance the placements of others that displaced it |
| OperationOnce.OperationIsPlacedExactly | internal/database/device_operations.go:119-147 | after any run an operation is placed if and only if every guard holds and every earlier placement of it was displaced; it then only fills the slot |
| OperationOnce.PlacedIsKnown | internal/database/device_operations.go:119-147 | a placed operation is answered with its reserved generation, and the row knows it and can tell it |
| OperationOnce.RetryAnswer | internal/database/device_operations.go:180-211 | a retry of a known operation changes nothing; bound, it is told its own generation or refused, unbound, the first generation while the row can tell it and zero afterwards |
| OperationOnce.RetryIsToldExactly | internal/database/device_operations.go:196-206 | after any run that placed no other operation, an unbound retry is told the first generation if and only if no report without one became the last word |
| OperationOnce.AnswersAgreeExactly | internal/database/device_operations.go:180-206 | all successful unbound attempts of a run return one generation if and only if none is answered from a report without one |
| OperationOnce.OtherPlanIsRefusedExactly | internal/database/device_operations.go:183-199 | another plan under a known operation's id is refused as such exactly while the row has a plan hash to compare |
| OperationOnce.GenerationIsLost | internal/database/device_operations.go:255-265 | a run in which the retry is told zero, and then another plan under the same id is taken for this one |
| RowProjection.RunProjects | internal/database/device_change_sets.go:249-319 | the row after any run of the controller is the row after its own trace of queue, report, flag and edit steps |
| RowProjection.RunsKeepSlots | internal/database/device_operations.go:250-292 | in every reachable state every row satisfies the slot and generation invariant |
| RowProjection.GenerationsNeverFall | internal/database/device_change_sets.go:487-496 | desired, observed and last successful generation never decrease in any run |
| RowProjection.RecoveryFenceInEveryRun | internal/database/device_operations.go:130-131 | a device in RECOVERY_REQUIRED stays fenced whatever calls interleave |
| RowProjection.ExactlyOnceInEveryRun | internal/database/device_change_sets.go:283-317 | in every run of the controller the placements of a changeset balance the reports that made its device forget it; never forgotten, it is placed at most once, with one answer |
| RowProjection.RetryInEveryRun | internal/database/device_change_sets.go:283-316 | after any calls, a direct attempt is placed if and only if the row is ready, no rollout of the site is at work, and calls made the device forget every memory of the changeset |
| RowProjection.OwnedRetryInEveryRun | internal/database/device_change_sets.go:262-282 | an attempt for a rollout, if and only if moreover that rollout is RUNNING in the device's site and knows its role, other rollouts of the site not being at work |
| RowProjection.OperationPlacedInEveryRun | internal/database/device_operations.go:119-147 | after any calls an operation is placed if and only if the row is ready, the site is free and every earlier placement of it was displaced |
| RowProjection.OperationsInEveryRun | internal/database/device_operations.go:108-212 | the balance and the exact answer of an operation's retry after any calls |
| Leases.RunsKeepLeases | internal/database/rollout_worker.go:157-193 | in every reachable state a site has at most one live lease, and tokens, deadlines and statuses fit together |
| Leases.ClosedRolloutsStayClosed | internal/database/rollout_drafts.go:341-347 | STALE, REJECTED, completed and failed rollouts never change again in any run |
| Leases.SupersededDraftNeverRuns | internal/database/rollout_drafts.go:65-70 | a draft still DRAFT when a newer one is created is STALE in every later state |
| Leases.ClosedRolloutsActNoMore | internal/database/device_change_sets.go:270-277 | once a rollout is closed, in every later state it queues nothing, is neither claimed nor leased, and accepts no worker write |
| Leases.TokenIsLatest | internal/database/rollout_worker.go:166-185 | the stored worker token is always the one of the most recent successful claim |
| Leases.WritesCarryTheLatestToken | internal/database/rollout_worker.go:131-153 | a cursor, result or renewal write that changes anything carries the latest token and comes before the lease expired |
| Leases.DeposedWorkerNeverWrites | internal/database/rollout_worker.go:105-127 | once a rollout is claimed again, the previous holder's writes are refused in every later state |
| Leases.LiveLeaseProtectsSite | internal/database/rollout_drafts.go:154-163 | while a lease of at most twenty minutes lives, no draft claim, lease claim, operation or foreign changeset on its site has any effect, and no call takes the rollout out of RUNNING |
| LeaseTerms.LiveUntilItsDeadline | internal/database/rollout_worker.go:166-212 | with leases of at most twenty minutes, in every reachable state a rollout is live exactly until the deadline of its latest successful claim or renewal |
| LeaseTerms.RenewedLeaseLives | internal/database/rollout_worker.go:197-220 | for any durations, a renewed lease that nobody is granted again lives exactly while the rollout is RUNNING and the duration has not passed |
| LeaseTerms.LeaseGrantedExactly | internal/database/rollout_worker.go:157-193 | a lease is granted exactly for a positive duration to a waiting rollout of least number among the sites nobody works on |
| LeaseTerms.CursorIsLargest | internal/database/rollout_worker.go:108-113 | over any run the cursor is the largest of its start and the cursors written successfully |
| LeaseTerms.TakeoverResumes | internal/database/rollout_worker.go:185-185 | a worker that takes a rollout over starts at the largest cursor ever written for it |
| LeaseTerms.ResultsAreLastWritten | internal/database/rollout_worker.go:131-153 | once a rollout was leased, its results are those of the last successful worker write |
| DraftLife.RunsNumber | internal/database/rollout_drafts.go:57-64 | in every run the drafts of a site are numbered in order of creation, without a gap |
| DraftLife.ClaimLeavesOne | internal/database/rollout_drafts.go:126-163 | after a claim the claimed draft is RUNNING under a fresh token, crashed runs and all other drafts of the site are STALE, device flags are closed exactly after a crash, and nothing else changed |
| DraftLife.OneHolderInEveryRun | internal/database/rollout_drafts.go:179-204 | in every reachable state at most one rollout of a site is claimed and at most one has a live lease |
| DraftLife.ReleaseUndoesClaim | internal/database/rollout_drafts.go:363-384 | a released claim gives the draft back as it was, and it can be claimed again at once |
| DraftLife.VerdictsAreFinal | internal/database/rollout_drafts.go:336-359 | rejections with their reason, final statuses with their results and stale marks hold in every later state |
| DraftLife.StaleClosesDevices | internal/database/rollout_drafts.go:388-437 | a rollout is made stale exactly as a DRAFT or by its holder, and only a RUNNING one fails the devices it left RUNNING |
| DraftLife.OverlapBlocksTheSite | internal/database/device_change_sets.go:307-314 | while two rollouts of a site are RUNNING and fresh, nothing is queued on its devices on anyone's behalf |
| DraftLife.QueuedRolloutIsOverlapped | internal/database/rollout_worker.go:171-181 | a new draft that is claimed before a worker claims the site's queued rollout leads to two RUNNING rollouts |
| TwoClocks.ClocksAgreeExactlyWithinTwentyMinutes | internal/database/rollout_worker.go:167-184 | in every reachable state live leases look fresh to the twenty-minute fence, if and only if leases last at most twenty minutes |
| RolloutResults.ClaimIsAllOrNothing | internal/database/rollout_drafts.go:224-295 | a refused claim changes no table; an accepted one leaves the rollout QUEUED, the last item of each device held by it at the recorded generation, each device once in the results and all others WAITING |
| RolloutResults.IncrementalStatusIsRecount | internal/database/device_change_sets.go:517-531 | the incremental status equals the full recount of the updated results exactly when entries with missing keys are harmless |
| RolloutResults.CompleteEntriesAreCounted | internal/database/device_change_sets.go:532-546 | with complete entries for the reporting device the incremental status is the recount |
| RolloutResults.ClaimStoresThePrepared | internal/database/rollout_drafts.go:264-270 | an accepted claim stores the caller's results as they are, apart from generations, and changes nothing else of its rollout |
| RolloutResults.FinalReportIsMirrored | internal/database/device_change_sets.go:532-549 | a report changes a rollout's results exactly when it was stored, is final and the QUEUED rollout of the site waits for it; its entries then say what the device row says, all others are kept |
| Worker.SortIsSorted | internal/rolloutworker/worker.go:157-164 | the worker's order is sorted and a rearrangement of the plan's devices |
| Worker.GatewaysComeLast | internal/rolloutworker/worker.go:158-163 | whatever stands behind a Gateway in the order is a Gateway |
| WorkerLaws.OrderIsByRoleAndId | internal/rolloutworker/worker.go:157-164 | nothing but Gateways, in any letter case, follows a Gateway, and devices of one kind follow each other by id |
| Worker.GetRolloutProgress | internal/database/rollout_worker.go:67-102 | one pass over the results counts terminal and failed entries |
| WorkerLaws.ProgressCounts | internal/database/rollout_worker.go:84-100 | the two counts are the numbers of finished and of failed entries |
| NextChangeSet.QueuedChangeSetIsThePlan | internal/rolloutworker/worker.go:181-203 | together the operations of the queued changeset carry the device's commands, each once; each has all commands of its namespace in plan order under the hash observed for it; health checks are the plan's and the policy is local_auto |
| NextChangeSet.NothingIsQueuedExactly | internal/rolloutworker/worker.go:165-199 | nothing is decided exactly when no device stands at the cursor, it was started, a command leaves the plan, or a command's namespace lacks an observed hash |
| WorkerLaws.LostLeaseStops | internal/rolloutworker/worker.go:103-134 | a worker without its lease returns at its next write under it, within five steps, and touches no rollout on the way |
| WorkerLaws.CheckingCatchesUp | internal/rolloutworker/worker.go:109-115 | under a live lease the check brings worker and rollout to the number of finished entries, if that is ahead, and touches nothing else |
| WorkerLaws.SavingRecords | internal/rolloutworker/worker.go:208-223 | under a live lease saving marks every entry of the queued device QUEUED at its generation, keeps the others, and touches nothing else |
| WorkerLaws.RestsExactly | internal/rolloutworker/worker.go:122-124 | the worker returns exactly when its rollout is no longer RUNNING or all entries are finished |
| StagedRollout.ShapeCounts | internal/database/rollout_worker.go:89-100 | in a staged rollout the worker's terminal count is the number of devices done |
| StagedSafety.ExternalKeepsRollout | internal/database/device_change_sets.go:510-552 | reports, claims and all other calls keep the invariant that ties devices, results and cursor of a staged rollout |
| StagedTheorem.WorkerKeepsRollout | internal/rolloutworker/worker.go:103-134 | every atomic step of a worker, current or deposed, keeps that invariant and the worker's own knowledge |
| StagedTheorem.WorkersQueueInOrder | internal/rolloutworker/worker.go:165-208 | whenever any worker queues a device, all earlier devices succeeded, all later ones wait, no other device holds this rollout's changeset, and a Gateway has no non-Gateway behind it |
| StagedTheorem.WorkersStopAtTheSecondDevice | internal/database/device_change_sets.go:547-549 | from a draft, every device a worker ever queues is the second of the order, at its turn |
| StagedTheorem.ClaimedProgressIsFrozen | internal/database/rollout_worker.go:136-141 | once a worker has claimed the rollout, no event changes which devices are done, or how |
| StagedExample.SecondDeviceIsQueued | internal/rolloutworker/worker.go:103-121 | a reachable run: from a draft, through a claim, two reports and a lease, a worker queues the second device |
| DeviceOrder.SortsAgreeExactly | internal/rolloutworker/worker.go:158-163 | two sorts by role and id give a list of distinct ids the same order if and only if they agree on every pair |
| PhaseOrder.OrdersAgreeExactly | internal/api/handlers/site_orchestrator.go:1729-1748 | the orchestrator's phases follow the worker's order if and only if Gateways in other spellings stand between the plain non-Gateways and the exact Gateways by id |
| PhaseOrder.StoredRolesKeepOneOrder | internal/api/handlers/site_orchestrator.go:859-863 | with the roles that the role handler stores, the two orders are always the same |
| FleetRuns.FleetIsARun | internal/rolloutworker/worker.go:96-135 | the tables after any interleaving of workers and crashes are the tables after a run of exported calls |
| FleetRuns.CrashesNeverApplyTwice | internal/rolloutworker/worker.go:200-223 | workers that crash between queueing and saving, mixed with operations, reports and edits, place a device's changeset at most once, and unbound attempts raise its generation by exactly the placements |
| FleetRuns.FleetKeepsBothClocks | internal/database/rollout_worker.go:195-220 | with leases of at most twenty minutes no interleaving of workers makes the two clocks disagree |
| Store.ControllerStore.EnqueueChangeSet | internal/database/device_change_sets.go:249-385 | the guarded update or the explained refusal, equal to the row step, with and without an owning rollout |
| Store.ExplainRefusedChangeSet | internal/database/device_change_sets.go:325-384 | the reads after a refused update answer a retry with the generation it already has, and every other case with its error |
| Store.ControllerStore.QueueDeviceOperation | internal/database/device_operations.go:108-212 | the guarded update of the operation slot and its idempotent answers |
| Store.ExplainRefusedOperation | internal/database/device_operations.go:157-211 | the reads after a refused update give the answer that OperationOnce characterises |
| Store.ControllerStore.RecordDeviceOperationStatus | internal/database/device_operations.go:235-304 | an operation report that matches updates the row and clears the slot when terminal, any other changes nothing |
| Store.ControllerStore.RecordDeviceChangeSetStatus | internal/database/device_change_sets.go:435-555 | an accepted report updates the row, and a terminal one every QUEUED rollout that awaits it |
| Store.ControllerStore.CreateRolloutDraft | internal/database/rollout_drafts.go:43-95 | the new draft has the largest sequence of its site and is its only DRAFT |
| Store.ControllerStore.ClaimInTransaction | internal/database/rollout_drafts.go:126-177 | the claim, expiry and supersession all read the state before the statement |
| Store.ControllerStore.ClaimRolloutDraft | internal/database/rollout_drafts.go:182-204 | a refused claim rolls everything back |
| Store.ControllerStore.ClaimAndQueueDeviceChangeSets | internal/database/rollout_drafts.go:224-295 | the loop over the items runs on a private copy that is committed as a whole or dropped |
| Store.AddDeviceGenerations | internal/database/rollout_drafts.go:297-332 | generations are written exactly when every changeset device occurs once and all other entries wait |
| Store.ControllerStore.RejectRolloutDraft | internal/database/rollout_drafts.go:336-359 | only a DRAFT is rejected |
| Store.ControllerStore.ReleaseRolloutDraft | internal/database/rollout_drafts.go:363-384 | only the holder of the claim returns a rollout to DRAFT |
| Store.ControllerStore.MarkRolloutDraftStale | internal/database/rollout_drafts.go:388-425 | a draft or held claim becomes STALE, and device flags are closed only for a claimed run |
| Store.ControllerStore.ClaimQueuedRollout | internal/database/rollout_worker.go:157-193 | a lease is granted exactly when some rollout is claimable, to one of least sequence |
| Store.ControllerStore.RenewRolloutLease | internal/database/rollout_worker.go:197-220 | only the live holder extends its lease, for as long as `LeaseTerms.RenewedLeaseLives` states |
| Store.ControllerStore.UpdateRolloutWorkerCursor | internal/database/rollout_worker.go:105-127 | only the live holder raises the cursor |
| Store.ControllerStore.UpdateRolloutWorkerResults | internal/database/rollout_worker.go:131-153 | only the live holder replaces the results |
| WorkerLoop.GroupCommands | internal/rolloutworker/worker.go:181-187 | commands are grouped by namespace in order, unless one lies outside the plan |
| WorkerLoop.CollectOperations | internal/rolloutworker/worker.go:188-199 | one operation per namespace with commands, in the fixed order, unless an observed hash is missing |
| WorkerLoop.DecideNextPhase | internal/rolloutworker/worker.go:148-203 | the loops decide exactly the next phase, whose content `NextChangeSet.QueuedChangeSetIsThePlan` states |
| WorkerLoop.MarkQueuedInPlace | internal/rolloutworker/worker.go:212-218 | editing entries in place marks exactly the entries of the queued device |
| WorkerLoop.QueueNextPhase | internal/rolloutworker/worker.go:208-223 | queueing and saving are two atomic steps of the worker |
| WorkerLoop.ReconcileLease | internal/rolloutworker/worker.go:96-135 | undisturbed, the whole loop does what its atomic steps do, until the worker returns or is cancelled |
| ThreatCidr.NetworkLastIP | internal/services/threat_intel.go:73-79 | the returned last address is the network's own bytes, overwritten |
| ThreatCidr.OverlapByEnds | internal/services/threat_intel.go:43-45 | two prefixes share an address exactly when one holds the other's first or last address |
| ThreatCidr.TestsDecide | internal/services/threat_intel.go:42-48 | the three tests decide the overlap whichever address of the network its bytes currently hold |
| ThreatCidr.SafeThreatCidr | internal/services/threat_intel.go:36-50 | true exactly when no address lies both in the CIDR and in an excluded network |
| ThreatCidr.ValidateThreatListContent | internal/services/threat_intel.go:54-71 | a list is accepted exactly when it has at least ten entries and every entry is safe |
| ThreatRanges.ExcludedAreReserved | internal/services/threat_intel.go:19-34 | the excluded networks hold exactly the reserved addresses, byte by byte |
| ThreatRanges.SafeMeansPublic | internal/services/threat_intel.go:36-50 | a network passes exactly when none of its addresses is reserved |
| ThreatRanges.LineSaysItsToken | internal/services/threat_intel.go:56-66 | a line says its first word without trailing semicolons and commas, a blank line nothing |
| UciPrinter.ShellQuoteIsOneWord | internal/services/uci_bridge.go:505-513 | a quoted text is one shell word that reads as the text, whatever it contains |
| UciPrinter.PrintedCommandsDecode | internal/services/uci_bridge.go:416-443 | a printed line, deletes with their fallback and the delete_all loop included, is read by a shell as the command it was printed from |
| UciPrinter.AcceptedCommandsAreRead | internal/database/device_change_sets.go:129-135 | every command of a changeset that the database accepts is printed and read back as itself |
| UciShow.ParseUCIValue | internal/api/handlers/central_config.go:779-812 | the consuming loops compute the value function, for quoted, listed and bare text |
| UciShow.ParsePrintedValue | internal/api/handlers/central_config.go:785-811 | a printed value parses back, quotes and backslashes included |
| UciShow.ParseUciShow | internal/api/handlers/central_config.go:692-777 | the loop with its section map and order computes the fold over the lines |
| UciShow.ParsePrintedSections | internal/api/handlers/central_config.go:692-777 | parsing the printed form of any sections with valid distinct names and newline-free values gives them back, in order |
| UciLines.ParsedIsTold | internal/api/handlers/central_config.go:692-777 | the parse of any output has the sections that lines mention, in order of first mention, each with the type declared last and each option with the values given to it, in order |
| UciLines.ShownIsTold | internal/api/handlers/central_config.go:760-777 | the listed sections are these, one for each id, anonymous exactly when the id starts with @ |
| UciLines.BareValueIsRead | internal/api/handlers/central_config.go:779-783 | an unquoted value stands for itself, without quotes behind it |
| UciHost.ParseMACList | internal/services/uci_bridge.go:52-73 | the scan, the check of what remains and the loop with its seen map compute the list of distinct addresses |
| UciHost.JoinedMacsParse | internal/services/uci_bridge.go:460-460 | distinct addresses joined by blanks or quotes are read back in order |
| UciHost.MacListIsCaseBlind | internal/services/uci_bridge.go:64-65 | the letter case of a MAC list does not matter |
| UciHost.HostMatchesObserved | internal/api/handlers/central_config.go:493-511 | an ensure_host command is satisfied exactly when some host section has its name, its addresses in order and its IP |
| UciHost.LeaseIsPresentExactly | internal/api/handlers/central_config.go:493-511 | a lease is present exactly when a host section has its name, its addresses in upper case and order, and its IP |
| UciHost.WrittenLeaseMatches | internal/services/uci_bridge.go:492-501 | a lease left as the host script writes it counts as satisfied, in any letter case of the addresses |
| UciDrift.SectionMatchesReference | internal/api/handlers/central_config.go:579-611 | the counting loop compares a section's place among its type with the reference, whose number is the one UciIndex describes |
| UciDrift.ReferenceNamesOneSection | internal/api/handlers/central_config.go:579-611 | with distinct ids whose anonymous form tells their place, a reference matches exactly the section it names, also for @type[n] and @type[-k] |
| UciIndex.AtoiReadsDecimals | internal/api/handlers/central_config.go:587-590 | the index text of a number denotes that number, with a minus its negative |
| UciIndex.AtoiAddsPlaces | internal/api/handlers/central_config.go:587-590 | digits count by their decimal places |
| UciIndex.ForwardNamesByPosition | internal/api/handlers/central_config.go:587-609 | where no section has that text as its id, @type[n] matches exactly the section of the type with n of the type before it |
| UciIndex.BackwardNamesByPosition | internal/api/handlers/central_config.go:605-607 | and @type[-n] exactly the one with n - 1 of the type behind it |
| UciDrift.PlannedListAfterDelete | internal/api/handlers/central_config.go:552-566 | the list a deleted option is rebuilt to, unless another write intervenes |
| UciDrift.RebuiltExactly | internal/api/handlers/central_config.go:552-577 | a deleted option is rebuilt to exactly what later commands add to it, and to nothing when another write of it comes anywhere later |
| UciDrift.CommandMatchesObserved | internal/api/handlers/central_config.go:492-540 | a delete looks at the first matching section only, ensure_host at the host sections, any other command at all that match |
| UciDrift.MatchesExactly | internal/api/handlers/central_config.go:492-540 | where references name one section, a command is judged by that section's option alone: delete by absence, add_list and del_list by membership, any other by equality |
| UciDrift.AddAndRemoveExclude | internal/api/handlers/central_config.go:650-676 | adding and removing a value are satisfied in opposite cases, and neither without the option |
| UciDrift.CommandMatchesObservedInPlan | internal/api/handlers/central_config.go:542-550 | a delete that is rebuilt is compared with the planned list |
| UciDrift.FilterCommandsByObservedState | internal/api/handlers/site_orchestrator.go:1651-1661 | the filter keeps the unsatisfied commands in order |
| UciPlan.PlanFixesOption | internal/api/handlers/central_config.go:552-566 | a tidy plan fixes the value of every option it writes, whatever was there |
| UciPlan.ApplyAllFolds | internal/api/handlers/central_config.go:579-611 | applying a plan folds, for every option of every section, the commands that write it under any name |
| UciPlan.AppliedPlanMatchesExactly | internal/api/handlers/central_config.go:552-566 | after a tidy plan is applied every command counts as satisfied if and only if, per option, the commands under any name leave what those under this name plan |
| UciPlan.AppliedPlanMatches | internal/api/handlers/central_config.go:542-550 | after a tidy plan that writes no option under two names is applied, every command counts as satisfied |
| UciPlan.NoDriftMeansNoChange | internal/api/handlers/central_config.go:424-440 | all commands of a tidy plan are satisfied if and only if applying it would change nothing |
| UciPlan.AliasedPlanShowsDrift | internal/api/handlers/central_config.go:555-555 | references are compared as text, so a list rebuilt under another name shows drift after it was applied |
| UciFilter.FilterKeepsEffectExactly | internal/api/handlers/site_orchestrator.go:1651-1661 | the filtered plan has the effect of the whole plan if and only if no dropped command belongs to an option that lacks its planned value |
| UciFilter.FilterKeepsExactly | internal/api/handlers/site_orchestrator.go:1651-1661 | the filter keeps, in order, all commands without an option and of the others those that are neither satisfied nor the default that may be left out |
| UciFilter.PresentValueIsLost | internal/api/handlers/site_orchestrator.go:1654-1657 | an add_list of a value that is present in a list to be rebuilt is always lost |
| UciFilter.ResetPlanLosesAServer | internal/api/handlers/site_orchestrator.go:1689-1689 | a concrete plan and device on which the filtered plan differs from the plan |
| SentinelMemory.UniqueRefsAreRefs | internal/services/sentinel_learning_store.go:575-593 | the stored list holds only given, complete references |
| SentinelTerms.UniqueRefsKeepEveryKey | internal/services/sentinel_learning_store.go:575-593 | the stored list has one reference for every given key and no key twice |
| SentinelTerms.UniqueRefsAreAll | internal/services/sentinel_learning_store.go:575-593 | where no case text has a colon, it holds exactly the complete references that were given |
| SentinelTerms.SortedRefsAreOrdered | internal/services/sentinel_learning_store.go:586-591 | sorted by case, then by evidence |
| SentinelTerms.RefHoldsExactly | internal/services/sentinel_learning_lifecycle.go:43-70 | a reference holds exactly when its case exists within the scope and has evidence of that name |
| SentinelTerms.CreationAcceptedExactly | internal/services/sentinel_learning_lifecycle.go:74-104 | a claim is accepted exactly when statement, confidence and life are within bounds, its case exists and fits, evidence is given and all evidence holds |
| SentinelTerms.CreatedMemoryIs | internal/services/sentinel_learning_lifecycle.go:109-128 | it is the live memory with this claim, or starts a candidate with exactly the given evidence, scope and hours |
| SentinelTerms.MemoryLivesItsHours | internal/services/sentinel_learning.go:320-328 | whatever happens to it, a memory is live only until its asked hours passed, thirty days by default |
| SentinelTerms.ClaimsStayUnique | internal/services/sentinel_learning_lifecycle.go:109-127 | in every run no case has two live memories with one statement |
| SentinelTerms.CallsFollowEdges | internal/services/sentinel_learning_lifecycle.go:131-224 | every call moves a memory along an edge of its life on what that edge rests on, or leaves it alone |
| SentinelTerms.MemoryCallsSucceedExactly | internal/services/sentinel_learning_lifecycle.go:131-188 | validation, rejection and counter-evidence succeed exactly on the guards of their edge, and no counter-evidence is lost |
| SentinelTerms.SupersedeSucceedsExactly | internal/services/sentinel_learning_lifecycle.go:190-215 | supersession succeeds exactly between two trusted memories of one scope under two texts |
| SentinelTerms.TrustWasChecked | internal/services/sentinel_learning_lifecycle.go:131-153 | a memory that became VALIDATED in a run was then a live candidate, without counter-evidence, all of whose evidence held |
| SentinelTerms.ExpiryLeavesNoneOverdue | internal/services/sentinel_learning_store.go:285-299 | after an expiry pass no candidate or trusted memory is overdue, and only overdue ones expired |
| SentinelMemory.RunsKeepMemories | internal/services/sentinel_learning_lifecycle.go:131-153 | in every run VALIDATED memories have evidence and no counter-evidence, links sit on SUPERSEDED memories, and all references between rows hold |
| SentinelMemory.ContradictedNeverTrusted | internal/services/sentinel_learning_lifecycle.go:159-188 | a memory that has counter-evidence is never VALIDATED in any later state |
| SentinelMemory.SweepSparesLiveMemories | internal/services/sentinel_store.go:253-269 | a sweep deletes no live memory and no case it cites canonically |
| SentinelMemory.CitedCasesSurvive | internal/services/sentinel_store.go:255-264 | in every run with canonical references the cases cited by live memories exist, after any number of sweeps |
| SentinelForest.ForestChains | internal/services/sentinel_learning_lifecycle.go:199-207 | in a forest every chain ends, never returns and keeps one scope |
| SentinelForest.SupersedeKeepsForestExactly | internal/services/sentinel_learning_lifecycle.go:202-215 | a supersession keeps the forest if and only if the two ids name different rows |
| SentinelForest.SupersessionStaysForest | internal/services/sentinel_learning_lifecycle.go:190-224 | over every run in which no call names one memory by two texts, supersession is a forest |
| SentinelForest.SelfSupersession | internal/services/sentinel_learning_lifecycle.go:202-204 | a memory named in two spellings supersedes itself |
| SentinelForest.OtherSpellingIsNotProtected | internal/services/sentinel_store.go:261-262 | a cited case survives a sweep exactly when it is cited in the database's spelling, is a live memory's source, or is an active skill's source |
| SentinelForest.SpellingLosesItsCase | internal/services/sentinel_store.go:253-269 | a reachable state in which a live memory's evidence names a case that was swept |
| SentinelForest.LinkBlocksEverySweep | internal/services/sentinel_learning_store.go:48-48 | while a superseded memory's case stays unresolved, in every run its successor and the successor's case stay, and each sweep that would delete that case deletes none |
| SentinelSweeps.SweepDeletesExactly | internal/services/sentinel_store.go:253-274 | a sweep is refused exactly when a supersession link would break; otherwise it deletes exactly the obsolete cases, what was learned from them, and evaluations that lost skill or case |
| SentinelSkills.LatestIsLatestPerCase | internal/services/sentinel_learning_store.go:462-467 | the selected rows are exactly the latest evaluation per case and mode |
| SentinelSkills.CountsAreDistinctCases | internal/services/sentinel_learning_store.go:468-473 | each count is the number of distinct cases whose latest evaluation matched |
| SentinelSkills.OneCaseCountsOnce | internal/services/sentinel_learning_store.go:459-460 | any number of further evaluations of one case changes each count by at most one |
| SentinelSkills.ThresholdsMeanCases | internal/services/sentinel_learning.go:308-318 | the thresholds hold exactly when three replay and five shadow cases matched, both means reach 0.8 and no latest result is unsafe |
| SentinelSkills.TrustIsEarned | internal/services/sentinel_learning_lifecycle.go:411-435 | every TRUSTED skill was promoted from SHADOW on such cases, with a valid and safe spec |
| SentinelSkills.StagesNeverGoBack | internal/services/sentinel_learning_store.go:478-503 | the lifecycle stage of a skill never falls and its spec never changes |
| SentinelGates.ValidSpecsAreSound | internal/services/sentinel_learning.go:183-240 | a spec is valid exactly with a proper name, few and short texts, known severities and one to four known, read-only tools |
| SentinelGates.GatesOpenExactly | internal/services/sentinel_learning_lifecycle.go:266-466 | every call on a skill succeeds exactly in its state and on its spec or thresholds, and then moves this skill only |
| SentinelGates.CreatedSkillIs | internal/services/sentinel_learning_lifecycle.go:226-264 | a proposed skill is the active one of that name for the case, or a draft scoped to the case |
| SentinelGates.NamesStayUnique | internal/services/sentinel_learning_lifecycle.go:252-262 | in every run no case has two active skills of one name |
| SentinelGates.ReplayAcceptedExactly | internal/services/sentinel_learning_lifecycle.go:302-327 | a replay is accepted exactly for a VALIDATED or SHADOW skill and a case in its scope |
| SentinelGates.ShadowRunRecords | internal/services/sentinel_learning_lifecycle.go:381-409 | a shadow run records one evaluation of a SHADOW skill in scope, the share of its tools whose evidence was there, and nothing else |
| SentinelReplay.ReplayStoresTheShare | internal/services/sentinel_learning_lifecycle.go:302-344 | a replay as of a time, by default the case's resolution, else its last update, stores the share of the usable tools that had captured something by then |
| SentinelReplay.FullScoreExactly | internal/services/sentinel_learning.go:298-306 | its score is one exactly for a valid, matching skill all of whose tools had captured something by then |
| SentinelReplay.NoHindsight | internal/services/sentinel_learning_lifecycle.go:285-300 | adding or removing evidence captured after that time changes neither the answer nor what is stored |
| Patterns.SkillNamesAgree | internal/services/sentinel_learning.go:38-38 | the rule for skill names accepts exactly what the pattern matches |
| SentinelSkills.EvaluationsAreConsistent | internal/services/sentinel_learning.go:298-306 | recorded evaluations satisfy the table's checks, and a full score means every tool was available |
| SentinelSkills.ReplayIsIdempotent | internal/services/sentinel_learning_store.go:437-446 | replaying a case again at the same time stores nothing |
| SentinelStore.UniqueLearningRefs | internal/services/sentinel_learning_store.go:575-593 | one pass keeps the first reference of each key, sorted |
| SentinelStore.ValidateEvidenceRefs | internal/services/sentinel_learning_lifecycle.go:43-72 | the loop with its cache accepts exactly references that exist within the scope |
| SentinelStore.NormalizeStringSet | internal/services/sentinel_learning.go:160-181 | the result holds each non-empty normalised value once, unless there are too many or one is too long |
| SentinelStore.ValidateSkillSpec | internal/services/sentinel_learning.go:183-240 | a spec is valid exactly when it is well formed and all its tools are known and read-only |
| SentinelStore.LearningStore.CreateCandidate | internal/services/sentinel_learning_lifecycle.go:74-129 | a candidate is stored once per live claim, with checked evidence |
| SentinelStore.LearningStore.Validate | internal/services/sentinel_learning_lifecycle.go:131-153 | only an unexpired candidate with evidence and no counter-evidence becomes VALIDATED |
| SentinelStore.LearningStore.RecordCounterEvidence | internal/services/sentinel_learning_lifecycle.go:159-188 | counter-evidence is added and demotes a VALIDATED memory |
| SentinelStore.LearningStore.SupersedeMemory | internal/services/sentinel_learning_lifecycle.go:190-224 | the guarded supersession step |
| SentinelStore.LearningStore.SweepCases | internal/services/sentinel_store.go:253-274 | the deletion with its cascades, refused as a whole by the foreign key, and the number of cases removed |
| SentinelStore.LearningStore.Replay | internal/services/sentinel_learning_lifecycle.go:302-344 | the replay step, whose score `SentinelReplay` states, stored once |
| SentinelStore.LearningStore.StartSkillShadow | internal/services/sentinel_learning_lifecycle.go:346-366 | SHADOW is entered only from VALIDATED on the replay thresholds |
| SentinelStore.LearningStore.EvaluateShadowSkills | internal/services/sentinel_learning_lifecycle.go:381-409 | the loop records one shadow evaluation for each listed skill |
| SentinelStore.LearningStore.PromoteSkill | internal/services/sentinel_learning_lifecycle.go:411-435 | TRUSTED is entered only from SHADOW with a valid spec and the promotion thresholds |
| SentinelStore.LearningStore.RevokeSkill | internal/services/sentinel_learning_lifecycle.go:441-466 | every skill can be revoked, and revoking again changes nothing |

## Left out

- Machine integers: generations, cursors and durations are unbounded; overflow of 64-bit values is not modelled.
- SQL isolation: each exported call is one atomic step, also where the code reads and writes in separate statements, as the learning calls do that look for an equal artifact before they insert one.
- JSON: documents are records; unknown fields, replacement of invalid UTF-8 and number formats are not modelled.
- Text: letters are folded as ASCII, and lengths count characters where the code counts bytes.
- UUIDs: rollouts are compared by row; only the learning tables model several texts for one id.
- Audit logs, device timestamps, tenants, schemas, advisory locks and I/O errors.
- Site and device deletion, whose cascades also remove learning rows, and edits of a rollout by handlers other than the final status of a claimed direct run.
- Progress: nothing is said about when agents report or workers run.
- StagedTheorem.WorkersQueueInOrder: assumes the first phase as the orchestrator prepares it, with only the first device of the worker's order queued, and that no other call uses this rollout's changeset ids; `PhaseOrder` says when the orchestrator's order is the worker's.
- Roles and plans come from one immutable plan; the orchestrator's rendering and its direct SSH execution are not modelled.
- NewDeviceChangeSetForRollout, the single-namespace variant, which derives ids in the same way.
- SortDevices: the library's stable sort is a function, as are splitting, trimming and white space of Go's strings package.
- WorkerLoop.ReconcileLease: with no other step in between; interleavings are the subject of StagedRollout.
- ThreatCidr.SafeThreatCidr: text parsing is a parameter, and IPv6 and IPv4-mapped CIDRs do not parse.
- UciPrinter.PrintedCommandsDecode: not the ensure_host script; pathname expansion of brackets is not modelled.
- UciPlan.AppliedPlanMatches: for plans with one set, one delete, or one delete followed by add_lists per option; whole-section commands and del_list have no modelled effect.
- SentinelStore.LearningStore.EvaluateShadowSkills: the query that lists skills, with its order and limit, is a given list.
- Redaction of secrets in statements, model routing, curation, classification and the World State of Sentinel.
- SentinelSkills.ThresholdsMeanCases: means are real numbers; rounding of floating-point averages is not modelled, and of evaluations with one timestamp the later row counts as latest.
- Generated shell scripts, cryptography, random identifiers, SSH, HTTP handlers, telemetry and the user interface.
