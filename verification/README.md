# Hypercluster: durable state machines and score arithmetic

A verification model of the Hypercluster challenge service: a subnet challenge that rents GPU capacity,
runs distributed jobs on it, scores them and pushes the resulting weights to a master. The model covers
the state that must survive crashes and races, and the arithmetic between a score row and a posted weight.

Each committed database session is one atomic step on tables held as Dafny maps and sequences. The code
that mutates rows (job lifecycle, leases, snapshots, ledger, catalog, nonces, and the folds and rankmap
loops) is modelled by classes and by methods with loops, each proved equal to a function of the old
tables; the properties are then proved about those functions, over one commit, over every run, and, where
sessions can interleave, over every interleaving.

| Part | Files |
|---|---|
| Jobs: rows of one job, what each writer does, decisions | `JobRecords`, `JobHistory`, `JobDecisions`, `JobEffects`, `JobReplays` |
| Jobs: budget gate, fair queue, drains, whole runs, the store | `JobQueue`, `DrainProgress`, `JobTable`, `JobStore` |
| Jobs: several sessions, statement by statement | `ClaimRaces`, `BudgetRaces`, `SealRaces` |
| Marketplace of nodes, offers, leases and pods | `MarketState`, `MarketRuns`, `MarketEffects`, `MarketStore` |
| Marketplace: several sessions, statement by statement | `MarketRaces`, `MarketScripts`, `TenancyRaces`, `LateWrites`, `ConsistencyRaces`, `TenantMarks` |
| Weight push: one session, many pushers statement by statement, what is served | `WeightPush`, `WeightRaces`, `WeightFinality`, `WeightServing` |
| Mass to weight | `RealMaps`, `Incentive`, `EmissionLaws`, `ShareCaps`, `Aggregation` |
| Points ledger, price catalog, side-by-side catalog writes | `PointsLedger`, `PriceCatalog`, `PriceRaces` |
| Rankmaps and bundles, InfiniBand gates, nonces | `RankMaps`, `FabricGates`, `NonceAuth` |
| Shared | `Common`, `Columns`, `Sessions`, `Totals` |

## Conventions

- A job, its attempts, its placement rows and its fabric report (four tables joined by job id) form one
  `JobFile`; the row index stands for the generated job id. Lease, pod, offer and node ids are strings.
- Digests and hashes are arbitrary functions; where a statement needs two inputs to have two digests it
  says so (`CollisionFree`). Signatures are a boolean input. Clocks are arbitrary inputs, non-decreasing
  only where a statement says so.
- Floats are real numbers; a value that is missing, NaN or infinite is `None`.
- Loops over query results without `ORDER BY` pick rows in an arbitrary order. The fair queue may return
  ties in any order.
- The master, the planner, the launch and the marketplace seen by a worker are nondeterministic inputs.
- Sessions that can meet are interleaved where it matters, SQL statement by SQL statement. A reading statement sees
  the committed rows; a commit writes the columns the session changed, without comparing, as the object-relational
  mapper does; a write transaction admits one writer at a time. `ClaimRaces` and `BudgetRaces` do this for the
  statuses of a job table, `SealRaces` for the evidence of one attempt, `WeightRaces` and `WeightFinality` for
  pushers, `PriceRaces` for the price catalog, and `MarketRaces` with the modules on top of it for all nine
  marketplace sessions. The other modules take a session as one step; statements about their runs hold for sessions
  that run one after the other, which earning points and spending nonces always do, since both write before they
  read what they update. `ClaimRaces`, `MarketScripts`, `WeightRaces`, `SealRaces` and `PriceRaces` prove that
  uninterrupted statements add up to the one-step session, and the modules on interleaving say which of the properties survive,
  and exactly when.

## Where the code does not do what its documentation says

Each is proved as an exact condition, or by a concrete run that breaks the promise.

1. **Draining.** A drain makes progress only while at most `limit` jobs are open. Smaller jobs are listed
   first, so one job holding the whole budget can be pushed out of the listing by `limit` one-rank jobs
   that the gate will not let past; from there no round changes anything, ever, and ordinary admissions
   and worker steps reach that state (`ProgressIffWithinLimit`, `StarvedForever`, `StarvationIsReachable`).
2. **Re-posting results.** Posts are documented as idempotent
   (`src/hypercluster/domain/job_lifecycle.py:398-399`). A post that is accepted because status and digests
   are equal, but whose metrics differ from the stored ones, can later be answered with a conflict
   (`ReplaysForeverIff`, `LooseAnswerBreaks`). With sessions one after the other a stored envelope always replays.
   Side by side, a post that read the attempt before it was sealed overwrites the seal, and the first accepted
   envelope then conflicts (`FirstPostConflicts`). A seal stays exactly while no such reading of another envelope is
   in flight (`SealStaysIff`), and in every run exactly with one session or for attempts after the first
   (`SealIsFinalIff`).
3. **Terminal status.** As long as sessions run one after the other a terminal job record is frozen. Side by
   side, a cancel, timeout, failure or post that read the job before it ended replaces the status, even a
   success, with a single worker and a single API request (`SuccessCanBeOverwritten`). A shown status is
   final exactly when no session still holds such a reading (`TerminalStatusStaysIff`), and final in every
   run exactly with one session (`TerminalIsFinalIff`).
4. **Budget.** The gate is read before the claim. The budget and the large-job limit hold at every moment of
   every run exactly when at most one session claims, however many others cancel or post
   (`BudgetHoldsIff`); two workers reach twice the budget from fresh jobs (`TwoWorkersOverrunBudget`).
5. **Share cap.** After normalisation the cap bounds the final shares exactly when it cut nothing
   (`CapHoldsIffNothingIsCut`). It still never concentrates shares (`CapNeverConcentrates`).
6. **Posted sum.** The body is documented as unit-sum (`src/hypercluster/weight_push.py:203-206`). Keys that
   are not hotkeys are dropped after normalisation, so the posted map sums to 1 exactly when none of them
   carried weight (`PostedSumIsOneIff`).
7. **Preview.** The preview and the weights endpoint take their map from the same source exactly when the
   newest snapshot is settled, or nothing is settled and the newest was not rejected (`PreviewAgreesIff`).
8. **Nonces.** Replay protection holds exactly when `2 * ttl + 1 + delay <= 86400`; the extra second is lost
   because the skew check sees whole seconds, `delay` is the longest a request takes (`AtMostOnceIff`).
9. **Acknowledgements.** A pusher reads the row, and writes its status later without comparing. An acked
   snapshot stays acked exactly while no other pusher holds an older reading it is about to act on
   (`AckedStaysIff`), its cursor advances no more exactly under the matching condition (`NeverAdvancesIff`),
   and both hold in every run exactly with a single pusher (`AckedIsFinalIff`, `CursorsAdvanceOnceIff`).
   What does hold for any number of pushers is `EveryRunIsSafe` and `OneBodyPerKey`.
10. **Rents.** A rent reads its offer, its nodes and the live leases in separate statements and commits later.
    Live leases hold disjoint nodes, and no offer is leased twice, in every run exactly when at most one session
    rents, whatever all others do (`AlwaysExclusiveIff`).
11. **Node and offer statuses.** Sweeps, heartbeats, registrations, withdrawals, terminations and expiries write
    what they computed from older readings as well. Even with a single renter a live lease's node can end up offline
    or healthy, and its offer withdrawn (`LateSweepBreaks`, `LateRentBreaks`, `LateWithdrawBreaks`). A run keeps the
    market consistent exactly if each commit still fits the rows it meets (`StaysConsistentIff`); all runs do exactly
    with one session, or without rents (`AlwaysConsistentIff`). A tenant's node, or leased offer, keeps its status
    as long as the lease lives exactly if no older reading that would change it is in flight (`StaysRentedIff`,
    `StaysLeasedIff`).
12. **Push windows.** A window is checked before it is cut to whole seconds. If the
    master's schema lets it pass, it is stored as one that can never be retried exactly when it begins and ends
    within one second (`StoredWindowInvertedIff`).
13. **Price history.** Every catalog write appends a history row (`src/hypercluster/domain/pricing.py:287`) that names
    all columns, but writes only those that differ from its reading. The history tells the catalog exactly while
    each commit fits the row it meets (`StaysFaithfulIff`), and in every run exactly with one session
    (`AlwaysFaithfulIff`): a price confirmed beside a raise stays raised (`ConfirmationBreaks`).

One sentence of the documentation can be read in two ways: fabric mode `nvlink_only` is described as accepted if
reports exist (`src/hypercluster/fabric/gates.py:239-245`), and the code accepts it without any as well
(`OnlyIbModeFails`).

## Model

| member | source | states |
|---|---|---|
| JobHistory.CommitSafe | src/hypercluster/domain/job_lifecycle.py:340-656 | Every cancel, result post and worker step keeps the record invariant: terminal exactly with `finished_at`, a failure code exactly on failure, cancel and timeout, `started_at` on running, collecting and scoring, one placement while budget is held, distinct attempt numbers; sealed digests and metrics, the placement and the first report are untouched |
| JobHistory.RunSafe | src/hypercluster/domain/job_lifecycle.py:434-486 | The same over any run of writers: a sealed attempt's result, output and fabric digests and metrics never change again |
| JobHistory.TerminalIsFrozen | src/hypercluster/domain/job_lifecycle.py:1266-1337 | Terminal is absorbing: no run of writers changes any field of a terminal job record |
| JobHistory.CommitMovesForward | src/hypercluster/domain/job_lifecycle.py:1340-1503 | No writer moves a job backwards; one step crosses at most three forward edges; submitter, shape and request key never change |
| JobHistory.CommitKeepsSettled | src/hypercluster/domain/job_lifecycle.py:340-1503 | No writer changes the status of a sealed attempt that has ended, or whose job has ended, or that is no longer the newest; and it stays so |
| JobHistory.PostKeeps | src/hypercluster/domain/job_lifecycle.py:381-656 | A result post keeps the record invariant and every earlier piece of evidence |
| JobHistory.PostEndsWithJob | src/hypercluster/domain/job_lifecycle.py:560-600 | A stored post ends job and attempt together or leaves both open |
| JobHistory.CollectKeeps | src/hypercluster/domain/job_lifecycle.py:891-1231 | Collecting seals the newest attempt once and never touches a sealed one |
| JobHistory.FinishKeeps | src/hypercluster/domain/job_lifecycle.py:1455-1503 | Success ends the job without a failure code and leaves sealed digests alone |
| JobHistory.TimeoutKeeps | src/hypercluster/domain/job_lifecycle.py:1266-1314 | Timeout ends the job with code `timeout` and keeps the evidence |
| JobDecisions.EveryEndHasACause | src/hypercluster/domain/job_lifecycle.py:340-1503 | Over any run from admission on, the final status and failure code were written once, by a cancel of the submitter, an admissible post or a worker step with one of the listed codes; a worker times a job out only when it holds budget and its seconds, counted from start, else admission, else creation, have passed, or when the launch itself timed out; cancels and workers leave no open newest attempt |
| JobDecisions.OverdueIff | src/hypercluster/domain/job_lifecycle.py:1242-1263 | An open job is timed out exactly if it has started or holds budget and at least `timeout_s` seconds (none if negative) have passed since its start, else its admission, else its creation |
| JobDecisions.BindDecides | src/hypercluster/domain/job_queue.py:155-214 | A job naming a lease is bound exactly when its own active lease and pod fit together, else it fails; one without is bound at once in simulation, else waits until exactly the capacity timeout |
| JobDecisions.WorkerOutcomeIff | src/hypercluster/domain/job_lifecycle.py:1340-1503 | Exactly when a worker step times out (overdue at once, overdue on waking, or by the launch), when that is recorded, and when it fails or completes an open job; it never cancels |
| JobDecisions.WorkerProgressIff | src/hypercluster/domain/job_lifecycle.py:1415-1455 | Otherwise the next status on the way is written, and `placing` is left exactly with capacity and budget |
| JobDecisions.WorkerLeavesTraces | src/hypercluster/domain/job_lifecycle.py:720-888 | Entering `provisioning` leaves the planner's placement, entering `running` a start time and an attempt |
| JobDecisions.PostOutcomeIff | src/hypercluster/domain/job_lifecycle.py:434-486 | Replay, conflict or store, decided exactly by the attempts with the posted number; only a store writes |
| JobDecisions.StoredPostEndsJobIff | src/hypercluster/domain/job_lifecycle.py:488-656 | A stored post seals its attempt with exactly the posted envelope and ends the job exactly if its status is terminal and the job was open |
| JobDecisions.EndClosesNewest | src/hypercluster/domain/job_lifecycle.py:1266-1337 | Cancel, failure, timeout and success end the newest attempt with the job, except when the planner refuses the placement |
| JobEffects.PostRefusedIff | src/hypercluster/domain/job_lifecycle.py:402-432 | A post is forbidden exactly for an actor that is neither the submitter nor a party of the job's lease; an internal post never is |
| JobEffects.PostAnswers | src/hypercluster/domain/job_lifecycle.py:446-466 | Replay and conflict told by the columns: same result digest, or same status and both artifact digests; or sealed with another |
| JobEffects.StoredPostWrites | src/hypercluster/domain/job_lifecycle.py:479-560 | A stored post sets every column of its attempt, creates it only if its number is new, touches no other attempt and keeps the first fabric report |
| JobEffects.StoredPostEnds | src/hypercluster/domain/job_lifecycle.py:560-600 | Which terminal posts end the job, and with which failure code |
| JobEffects.CancelWrites | src/hypercluster/domain/job_lifecycle.py:340-378 | Only the submitter cancels, only an open job; status, code and end of the job and of its newest open attempt change, nothing else |
| JobEffects.OverdueStepWrites | src/hypercluster/domain/job_lifecycle.py:1266-1314 | A worker step on an overdue job does nothing but time out the job and its newest open attempt, or a first one |
| JobEffects.WaitingStepWrites | src/hypercluster/domain/job_lifecycle.py:1372-1434 | What a step on a waiting job leaves for each answer of binding, gate and planner: lease and pod, status, placement and failure |
| JobEffects.ProvisioningStepWrites | src/hypercluster/domain/job_lifecycle.py:1458-1481 | Start time and first attempt, or the forced failure of both |
| JobEffects.RunningStepWrites | src/hypercluster/domain/job_lifecycle.py:891-1231 | Which column of the newest attempt takes which part of the launch result, unless the attempt is sealed, and what becomes of the job and the report |
| JobEffects.SleepingStepWrites | src/hypercluster/domain/job_lifecycle.py:1482-1492 | A job that slept past its deadline is timed out when it wakes |
| JobEffects.LastStepsWrite | src/hypercluster/domain/job_lifecycle.py:1493-1503 | Scoring, then success of the job and of its newest attempt, which keeps the end it had |
| JobReplays.StoredEnvelopeReplays | src/hypercluster/domain/job_lifecycle.py:434-486 | Once stored, the same envelope posted after any run, by anyone, changes no row and is answered by the same attempt |
| JobReplays.LooseAnswerBreaks | src/hypercluster/domain/job_lifecycle.py:434-486 | Any answer that is not permanent is undone by some single writer: the post then conflicts |
| JobReplays.LooseAnswerIsReachable | src/hypercluster/domain/job_lifecycle.py:434-486 | From every fresh job: post as running, post again with other metrics (a replay), cancel, and the same post conflicts |
| JobReplays.AnsweredReplaysForeverIff | src/hypercluster/domain/job_lifecycle.py:434-486 | An answered envelope keeps being answered through every run exactly if its attempt is permanent for it |
| JobReplays.ReplaysForeverIff | src/hypercluster/domain/job_lifecycle.py:381-486 | The documented idempotency of an accepted post holds exactly under that condition, and always for stored posts |
| JobQueue.HoldingNeedsRoom | src/hypercluster/domain/job_lifecycle.py:1419-1434 | A job starts to hold budget only by a worker step past an open gate |
| JobQueue.GateIs | src/hypercluster/domain/job_queue.py:113-136 | The gate is open exactly if all worlds held and the job's own fit the budget and, for a large job, fewer large holders are counted than allowed, with the defaults 64, 4 and 4 |
| JobQueue.QueueOrder | src/hypercluster/domain/job_queue.py:139-153 | The queue is ordered by size, then age, and leaves out only jobs that come after every listed one |
| JobQueue.CommitKeepsBudget | src/hypercluster/domain/job_queue.py:113-136 | With gate and claim in one step, the world-size budget and the large-job limit survive every writer |
| DrainProgress.WaitsIffUnmoved | src/hypercluster/domain/job_lifecycle.py:1340-1455 | A worker step leaves an open job's status unchanged exactly when it waits for capacity or budget |
| DrainProgress.GateSeesView | src/hypercluster/domain/job_queue.py:113-136 | The gate depends on nothing but the other jobs' statuses and sizes |
| DrainProgress.DrainMoves | src/hypercluster/domain/job_lifecycle.py:1528-1556 | A round never moves a job away from its end, and equal distance means equal status |
| DrainProgress.DrainStallsIff | src/hypercluster/domain/job_lifecycle.py:1528-1556 | A round changes no status exactly if every listed job waits as the table stood before the round |
| DrainProgress.QueueListsAll | src/hypercluster/domain/job_queue.py:139-147 | With at most `limit` open jobs the fair queue lists every one |
| DrainProgress.IdleGateOpens | src/hypercluster/domain/job_queue.py:113-136 | If nothing holds budget, the gate is open for every job that fits it alone |
| DrainProgress.RoundMakesProgress | src/hypercluster/domain/job_lifecycle.py:1528-1556 | In simulation, with at most `limit` open jobs that each fit the budget, every round moves some job |
| DrainProgress.RoundBringsCloser | src/hypercluster/domain/job_lifecycle.py:85-93 | The summed distance along the forward edges strictly drops each round |
| DrainProgress.RoundsFinish | src/hypercluster/domain/job_lifecycle.py:1528-1556 | After that many rounds every job is terminal |
| DrainProgress.SevenRoundsPerJob | src/hypercluster/domain/job_lifecycle.py:1528-1556 | Seven rounds per job always suffice, whatever clocks, placements and launches do |
| DrainProgress.StarvedQueueOmitsGiant | src/hypercluster/domain/job_queue.py:139-147 | The fair order never lists a budget holder behind more than `limit` smaller open jobs |
| DrainProgress.GiantClosesGate | src/hypercluster/domain/job_queue.py:128-136 | A job holding the whole budget closes the gate for every other job |
| DrainProgress.StarvedForever | src/hypercluster/domain/job_lifecycle.py:1528-1556 | From such a table any number of rounds changes no field of any row |
| DrainProgress.StarvedTableStarves | src/hypercluster/domain/job_queue.py:113-147 | For every limit there is such a well-formed table, with `limit + 1` open jobs |
| DrainProgress.QueueExists | src/hypercluster/domain/job_queue.py:139-153 | Every table has a fair listing |
| DrainProgress.ProgressIffWithinLimit | src/hypercluster/domain/job_lifecycle.py:1528-1556 | Progress is guaranteed for up to `k` open jobs exactly when `k <= limit` |
| JobTable.ShapeFault | src/hypercluster/domain/jobs.py:113-304 | The shape is accepted exactly if it is a full grid of positive dimensions within every cap |
| JobTable.FindRequest | src/hypercluster/domain/jobs.py:348-362 | The first job of the submitter under the request key, or none |
| JobTable.AdmitWrites | src/hypercluster/domain/jobs.py:382-516 | A request is answered by the job under its key, refused for its first fault, or becomes an open job on exactly the requested terms; no other row changes |
| JobTable.AdmitKeepsTable | src/hypercluster/domain/jobs.py:382-516 | Admission keeps one job per submitter and request key, the budget and every record |
| JobTable.DrainKeepsTable | src/hypercluster/domain/job_lifecycle.py:1528-1556 | A whole round keeps budget and records |
| JobTable.EveryRunKeepsTable | src/hypercluster/domain/job_lifecycle.py:1419-1434 | In every state reachable by admissions, cancels, posts, single claims and drains the budget holds, records are consistent and no request key has two jobs |
| JobTable.RunKeepsJobs | src/hypercluster/domain/jobs.py:382-516 | No run removes a job or changes who submitted it under which request key |
| JobTable.ResubmitReplays | src/hypercluster/domain/jobs.py:382-440 | Submitting again under an answered request key, after any run and with any body, returns the same job and changes nothing |
| JobTable.ReachableTablesDrain | src/hypercluster/domain/job_lifecycle.py:1528-1556 | Every reachable table with at most `limit` open jobs is finished by seven rounds per job, if admission caps sizes by the budget |
| JobTable.StarvationIsReachable | src/hypercluster/domain/job_queue.py:113-147 | Ordinary admissions and worker steps from an empty table reach the starved state |
| JobStore.JobStore.AdmitJob | src/hypercluster/domain/jobs.py:382-516 | Admits, returns the existing job of the request key, or rejects with the first fault; nothing else changes |
| JobStore.JobStore.CancelJob | src/hypercluster/domain/job_lifecycle.py:340-378 | The assignments of cancel produce exactly the specified row, errors write nothing, the table stays consistent |
| JobStore.JobStore.PostJobResults | src/hypercluster/domain/job_lifecycle.py:381-656 | The same for a result post, on every error and outcome |
| JobStore.JobStore.AdvanceJobOneStep | src/hypercluster/domain/job_lifecycle.py:1340-1503 | One worker step writes exactly the specified row and keeps the table |
| JobStore.JobStore.DrainJobsOnce | src/hypercluster/domain/job_lifecycle.py:1528-1556 | The loop equals the folded round, its result counts exactly the jobs whose status changed, and is 0 exactly if every listed job waits |
| ClaimRaces.StepKeepsInv | src/hypercluster/domain/job_queue.py:88-110 | One statement of any session keeps: one open write transaction, a claim holds the status it claimed, logged edges lie behind their job, placements fit the status |
| ClaimRaces.ClaimsCommitOnce | src/hypercluster/domain/job_lifecycle.py:1415-1455 | Under every interleaving each forward edge of a job commits at most once and at most one placement is written |
| ClaimRaces.NeverBackwards | src/hypercluster/domain/job_lifecycle.py:1415-1455 | Under every interleaving no job moves backwards or out of the terminal statuses |
| ClaimRaces.InitialIsInv | src/hypercluster/domain/job_lifecycle.py:1415-1455 | Fresh tables start inside the invariant |
| ClaimRaces.UninterruptedClaim | src/hypercluster/domain/job_lifecycle.py:1436-1503 | A worker whose statements are not interleaved leaves the row that its one-step claim leaves, whether its side effects succeed or fail |
| ClaimRaces.UninterruptedCancel | src/hypercluster/domain/job_lifecycle.py:340-378 | A cancel read and written at once is the one-step cancel |
| ClaimRaces.TerminalStatusStaysIff | src/hypercluster/domain/job_lifecycle.py:1266-1337 | A terminal job keeps the status it shows in every later run exactly if no session still holds an earlier reading of it |
| ClaimRaces.TerminalIsFinalIff | src/hypercluster/domain/job_lifecycle.py:340-378 | A terminal status is final in every run over fresh jobs exactly with a single session |
| ClaimRaces.SuccessCanBeOverwritten | src/hypercluster/domain/job_lifecycle.py:340-378 | A run from a fresh job in which, with one worker, a cancel replaces a committed success |
| BudgetRaces.BudgetHoldsIff | src/hypercluster/domain/job_queue.py:113-136 | The world-size budget and the large-job limit hold at every moment of every run over fresh jobs exactly if at most one session claims |
| BudgetRaces.RoomyIsTheGate | src/hypercluster/domain/job_queue.py:113-136 | The gate and the budget over the rows of the interleaved model are those over the jobs |
| BudgetRaces.StepKeepsRoom | src/hypercluster/domain/job_lifecycle.py:1419-1434 | With one claimer, a job past the gate still has room at its claim, whatever other sessions end meanwhile |
| BudgetRaces.TwoWorkersOverrunBudget | src/hypercluster/domain/job_lifecycle.py:1419-1434 | From fresh jobs, two workers reach twice the budget, for every budget and number of sessions |
| SealRaces.UninterruptedPost | src/hypercluster/domain/job_lifecycle.py:446-485 | A post whose reading and writing are not interleaved stores exactly what the one-step post does |
| SealRaces.UninterruptedWriters | src/hypercluster/domain/job_lifecycle.py:863-1338 | Start, collection, finish, timeout and stop, not interleaved, leave the attempt that the one-step writer leaves |
| SealRaces.SealStaysIff | src/hypercluster/domain/job_lifecycle.py:446-485 | A sealed attempt keeps its result digest through every later run exactly if no session that read it unsealed is about to store another envelope |
| SealRaces.FirstPostConflicts | src/hypercluster/domain/job_lifecycle.py:446-485 | Two posts that read the first attempt unsealed are both accepted, and the first then conflicts |
| SealRaces.SealIsFinalIff | src/hypercluster/domain/job_lifecycle.py:488-656 | The first seal is the last in every run of n sessions exactly if n is at most 1 or the attempt is not the first |
| MarketState.Dedup | src/hypercluster/domain/offers.py:186-231 | The node list keeps exactly the requested ids, each once |
| MarketState.FirstFault | src/hypercluster/domain/offers.py:186-231 | No complaint exactly if every node exists, is the provider's and is offerable |
| MarketState.PriceFault | src/hypercluster/domain/offers.py:82-96 | No complaint exactly for a positive price within the system cap |
| MarketState.BandFault | src/hypercluster/domain/offers.py:128-183 | In hard mode exactly the prices inside the catalog band pass |
| MarketRuns.OfferListedIff | src/hypercluster/domain/offers.py:234-409 | Exactly when an offer is listed: own offerable nodes, size fits the mode, InfiniBand if required, price and lifetime positive, capped and in band |
| MarketRuns.CreateKeepsInv | src/hypercluster/domain/offers.py:234-409 | Creating an offer, overlapping or not, keeps the market consistent |
| MarketRuns.WithdrawRefusedIff | src/hypercluster/domain/offers.py:412-476 | The owner's withdraw is refused exactly while the offer's lease is live, and then the offer is `leased` |
| MarketRuns.WithdrawKeepsInv | src/hypercluster/domain/offers.py:430-476 | Withdrawing keeps the market consistent |
| MarketRuns.ExclusiveFreeIffNoneRented | src/hypercluster/domain/leases.py:101-132 | In a consistent market the capacity check passes exactly if none of the nodes is rented |
| MarketRuns.RentGrantedIff | src/hypercluster/domain/leases.py:135-295 | A rent is granted exactly for a listed, affordable offer within its lifetime, all of whose nodes are live and tenant-free and, if required, have InfiniBand in the node table and in their latest report |
| MarketRuns.CheckedIsReserved | src/hypercluster/domain/leases.py:135-234 | A request that passes every check has free, existing nodes and an offer no lease was ever made on |
| MarketRuns.RentRowsKeepInv | src/hypercluster/domain/leases.py:236-295 | Committing the rows of a reserved rent keeps the market consistent, even if the offer was withdrawn meanwhile |
| MarketRuns.RentKeepsInv | src/hypercluster/domain/leases.py:135-295 | Renting keeps capacity exclusive, nodes rented exactly under a live lease, one lease per offer and lease terms within the offer's and the system's caps |
| MarketRuns.CloseUncovers | src/hypercluster/domain/leases.py:355-403 | Closing leases takes the tenant from exactly their nodes |
| MarketRuns.CloseKeepsInv | src/hypercluster/domain/leases.py:355-477 | Terminating or expiring any set of live leases keeps the market consistent |
| MarketRuns.NodeOpsChangeFreeNodes | src/hypercluster/domain/nodes.py:69-298 | Register, heartbeat and sweeps never add or remove a `rented` status |
| MarketRuns.SweepIsStaleSweep | src/hypercluster/domain/leases.py:480-514 | The reclaim sweep is exactly the stale-node sweep on free nodes; leases, pods, offers and rented nodes stay |
| MarketRuns.CommitKeepsInv | src/hypercluster/domain/leases.py:135-514 | Every one of the nine operations keeps the market consistent |
| MarketRuns.EveryRunIsConsistent | src/hypercluster/domain/leases.py:101-514 | With sessions one after the other, in every reachable market live leases hold disjoint nodes, a node is rented exactly when one of them holds it, pods stop exactly with their leases, each offer has at most one lease, inside its terms |
| MarketRuns.RunKeepsHistory | src/hypercluster/domain/leases.py:355-477 | Offer terms, lease parties and pod nodes never change, a closed lease never reopens, an offer once off the list is never listed again |
| MarketRuns.TenantIsProtected | src/hypercluster/domain/leases.py:480-514 | While its lease lives, a tenant keeps its running pod and all its nodes rented, whatever sessions run after one another |
| MarketRuns.LeasedOnceForever | src/hypercluster/domain/leases.py:158-191 | An offer that ever had a lease is never rented again |
| MarketRuns.BeatSurvivesSweep | src/hypercluster/domain/nodes.py:212-298 | A node that beat at `now` is untouched by any sweep with an earlier cutoff, can be offered unless banned, and no other provider's or unnamed node changed |
| MarketRuns.RegistrationSurvivesSweep | src/hypercluster/domain/nodes.py:69-184 | The same for a registered or re-registered node |
| MarketRuns.SweptNodesAreIdle | src/hypercluster/domain/nodes.py:272-298 | The sweep takes exactly free, live, silent nodes offline, after which every offer holding one is refused to renters |
| MarketRuns.EveryRunLeavesPlainNodes | src/hypercluster/domain/nodes.py:69-298 | In every reachable market every node is healthy, offline or rented |
| MarketRuns.TerminateUndoesRent | src/hypercluster/domain/leases.py:355-448 | In every reachable market, terminating right after renting gives the node table back as it was and leaves only the spent offer, the ended lease and its stopped pod |
| MarketEffects.RentWrites | src/hypercluster/domain/leases.py:236-295 | A granted rent writes one lease of the renter on the offer's provider and price for the asked hours, the maximum if none were asked, ending that much after now, one pod over the offer's nodes, and marks nodes and offer; nothing else |
| MarketEffects.RentExpiresIff | src/hypercluster/domain/leases.py:451-477 | After a granted rent, an expiry at t leaves the lease live, its pod running and its nodes rented exactly if t is before now plus 3600 seconds per hour of it, and else ends all three |
| MarketEffects.ExpireWrites | src/hypercluster/domain/leases.py:451-477 | An expiry ends exactly the live leases whose end has come, stops their pods and frees their rented nodes |
| MarketEffects.TerminateWrites | src/hypercluster/domain/leases.py:406-448 | Only renter and provider end a lease, strangers are refused, an ended lease stays as it is, and only its pod and rented nodes follow |
| MarketEffects.CreateWrites | src/hypercluster/domain/offers.py:332-409 | The listed row carries the distinct nodes, the asked or catalog price and the asked terms |
| MarketEffects.DedupKeepsOrder | src/hypercluster/domain/offers.py:198-209 | The nodes of an offer are listed in the order in which they were first named |
| MarketEffects.RentRefusals | src/hypercluster/domain/leases.py:150-235 | Each refusal of a rent, as the first check that fails |
| MarketRaces.RentChecksSplit | src/hypercluster/domain/leases.py:150-235 | The checks made after each of a rent's three readings are together the check of the one-step rent |
| MarketRaces.DoKeepsBase | src/hypercluster/domain/leases.py:283-292 | One statement of any session keeps leases paired with their pods, off-list offers and terms, and leaves every pending write well-formed |
| MarketRaces.EveryRunGoesOnward | src/hypercluster/domain/leases.py:355-477 | Under every interleaving of any number of sessions and renters: pods stop exactly with their leases, leases hold their offers' nodes on their terms, ended leases stay ended, offers off the list stay off, rows and terms never go |
| MarketScripts.ApplyDirty | src/hypercluster/domain/nodes.py:252-266 | Writing the columns that differ from the reading, over rows that did not change meanwhile, gives the wanted rows |
| MarketScripts.UninterruptedSessions | src/hypercluster/domain/leases.py:135-514 | The statements of each of the nine sessions, run without interleaving, commit exactly what its one-step form does |
| TenancyRaces.LoneRenterIsExclusive | src/hypercluster/domain/leases.py:101-132 | With one renting session, under every interleaving with all others, live leases hold disjoint nodes and no offer is leased twice |
| TenancyRaces.CollisionBreaks | src/hypercluster/domain/leases.py:101-132 | Two rents that both read before either commits lease one offer and one node twice, from an empty market |
| TenancyRaces.AlwaysExclusiveIff | src/hypercluster/domain/leases.py:135-295 | Capacity is exclusive in every run of n sessions exactly if n is at most 1 or at most one session rents |
| LateWrites.LateSweepBreaks | src/hypercluster/domain/nodes.py:283-298 | From an empty market, with one renter, a sweep that read the node while it was free takes a live lease's node offline |
| LateWrites.LateWithdrawBreaks | src/hypercluster/domain/offers.py:450-476 | From an empty market, with one renter, a withdraw that found no lease marks the offer of a live lease withdrawn |
| LateWrites.LateRentBreaks | src/hypercluster/domain/leases.py:193-292 | From an empty market, a rent that read its node while the last tenant was still in leaves the node healthy under its own live lease |
| ConsistencyRaces.CommitKeepsInvIff | src/hypercluster/domain/leases.py:355-403 | A commit of any session keeps a consistent market consistent exactly if what it writes still fits: marks agree with the rows on who is rented, a withdrawn offer has no live lease, a rented offer and all its nodes were and are free, a closer frees exactly the nodes of the leases it ends |
| ConsistencyRaces.StaysConsistentIff | src/hypercluster/domain/leases.py:101-514 | A run is consistent at every moment exactly if each of its commits fits the rows it meets |
| ConsistencyRaces.AlwaysConsistentIff | src/hypercluster/domain/leases.py:101-514 | The market is consistent after every run of n sessions exactly if n is at most 1 or none rents |
| TenantMarks.StaysRentedIff | src/hypercluster/domain/leases.py:480-514 | A tenant's node stays rented through every later run, as long as the lease lives, exactly if no session holds an older reading under which it would mark or free the node or rent it again |
| TenantMarks.StaysLeasedIff | src/hypercluster/domain/offers.py:412-476 | The offer of a live lease stays leased in the same sense exactly if no withdraw that found no lease is about to commit |
| MarketStore.MarketStore.RegisterNode | src/hypercluster/domain/nodes.py:69-184 | Registers or refreshes a node, never another provider's, never undoing `rented`, `banned` |
| MarketStore.MarketStore.NodeHeartbeat | src/hypercluster/domain/nodes.py:212-269 | Beats one owned node or all of the provider's, with the three refusals |
| MarketStore.MarketStore.MarkStaleNodesOffline | src/hypercluster/domain/nodes.py:272-298 | The loop takes exactly the stale free nodes offline and counts them |
| MarketStore.MarketStore.DropDuplicates | src/hypercluster/domain/offers.py:186-231 | The loop computes the ordered list without duplicates |
| MarketStore.MarketStore.LoadOwnedNodes | src/hypercluster/domain/offers.py:186-231 | The loops give the requested nodes without duplicates, or the first complaint in list order |
| MarketStore.MarketStore.CreateListedOffer | src/hypercluster/domain/offers.py:234-409 | Lists the offer or refuses with the first fault and changes nothing |
| MarketStore.MarketStore.WithdrawOffer | src/hypercluster/domain/offers.py:430-476 | Withdraws or refuses, nothing else changes |
| MarketStore.MarketStore.NodesExclusiveFree | src/hypercluster/domain/leases.py:118-132 | The loop over leases finds out whether a live lease's pod shares a node |
| MarketStore.MarketStore.CheckRent | src/hypercluster/domain/leases.py:149-234 | The rent's checks, query by query, refuse with the first fault |
| MarketStore.MarketStore.RentOffer | src/hypercluster/domain/leases.py:135-295 | The whole new market after a rent, and the refusals |
| MarketStore.MarketStore.FreeCapacity | src/hypercluster/domain/leases.py:355-378 | Stops the pod and releases exactly its rented nodes |
| MarketStore.MarketStore.TerminateLease | src/hypercluster/domain/leases.py:406-448 | Renter or owner closes a live lease, a closed one is left alone |
| MarketStore.MarketStore.ExpireDueLeases | src/hypercluster/domain/leases.py:451-477 | Expiring due leases one by one, in any order, equals closing them together, and the count is exact |
| MarketStore.CloseOneMore | src/hypercluster/domain/leases.py:451-477 | Closing one more lease after others equals closing them at once |
| MarketStore.MarketStore.RunIdleReclaimSweep | src/hypercluster/domain/leases.py:480-514 | Both phases together only take stale free nodes offline; nodes under a tenant are untouched |
| WeightPush.PrepareKeeps | src/hypercluster/weight_push.py:375-470 | A session alone that resolves or stores a snapshot never changes a stored body, never acknowledges, and only sends stored bodies |
| WeightPush.RecordKeeps | src/hypercluster/weight_push.py:742-830 | A session alone that records a reply never changes a body or un-acknowledges, acknowledges only on a reply matching slug, epoch, revision and digest, and advances the cursor only on the first settling |
| WeightPush.RetrySendsSameBody | src/hypercluster/weight_push.py:600-830 | A push without acknowledgement can be repeated at any later time with the very same body, an acknowledged one is not sent again; a lost reply marks a pending row failed, a refusal rejected, anything else leaves it |
| WeightPush.StoredWindowInvertedIff | src/hypercluster/weight_push.py:158-240 | A valid window is stored inverted exactly if it begins and ends in the same second |
| WeightPush.RecordOutcomes | src/hypercluster/weight_push.py:567-830 | Every reply and what it leaves: acknowledged exactly by a 200 or 201 whose parsed, accepted answer has an id and equals the body in slug, epoch, revision and digest; a difference in any of them is a mismatch that changes nothing |
| WeightPush.ReuseOutcomes | src/hypercluster/weight_push.py:577-700 | When a stored snapshot is sent again, is already acknowledged, or is marked invalid |
| WeightPush.FreshOutcomes | src/hypercluster/weight_push.py:577-700 | When a new snapshot is stored, with slug, key, whole-second window and digest, and when it is not |
| WeightRaces.UninterruptedSessions | src/hypercluster/weight_push.py:577-830 | The statements of a session that is not interrupted are the session of `WeightPush` |
| WeightRaces.DoKeepsInv | src/hypercluster/weight_push.py:577-830 | Every statement of every pusher keeps: bodies sent are the stored ones, acked rows name the id of a recorded matching reply |
| WeightRaces.EveryRunIsSafe | src/hypercluster/weight_push.py:687-830 | The same under every interleaving of pushers and every master behaviour; stored bodies and recorded master ids are never erased |
| WeightRaces.FirmStays | src/hypercluster/weight_push.py:804-830 | A settled snapshot that no session is about to demote stays settled and acked in every run, and advances no more unless an acknowledgement judged earlier is in flight |
| WeightRaces.OneBodyPerKey | src/hypercluster/weight_push.py:577-700 | Any two POSTs for one epoch and revision, by any pushers at any time, carry the same body |
| WeightFinality.AckedStaysIff | src/hypercluster/weight_push.py:714-739 | An acked snapshot stays acked in every run exactly if no session holds an older, unsettled reading it is about to act on |
| WeightFinality.NeverAdvancesIff | src/hypercluster/weight_push.py:804-830 | The cursor of a settled snapshot never advances again exactly if, besides, no acknowledgement judged against an unsettled reading is in flight |
| WeightFinality.StaleReadingIsReachable | src/hypercluster/weight_push.py:687-830 | From an empty table two pushers reach either stale reading |
| WeightFinality.AckedIsFinalIff | src/hypercluster/weight_push.py:714-739 | Acked is final in every run of n pushers exactly if n is at most 1 (or the schema accepts no body at all) |
| WeightFinality.CursorsAdvanceOnceIff | src/hypercluster/weight_push.py:804-830 | Each (epoch, revision) advances its cursor once in every run exactly under the same condition |
| WeightServing.LatestIsUnique | src/hypercluster/weight_push.py:285-310 | The latest-snapshot query has one answer |
| WeightServing.LatestIsGreatest | src/hypercluster/weight_push.py:285-310 | The latest snapshot has the newest epoch and its highest revision among those asked for |
| WeightServing.ServedIff | src/hypercluster/weights.py:63-173 | Exactly which snapshot the weights endpoint and the preview serve |
| WeightServing.PreviewAgreesIff | src/hypercluster/weights.py:63-173 | Exactly when preview and weights endpoint show the same source |
| WeightServing.NeverRegressesIff | src/hypercluster/weights.py:63-97 | The served epoch and revision never go back in any later run exactly if no session is about to demote the snapshot |
| WeightServing.SettledIsServed | src/hypercluster/weights.py:63-97 | Whenever something is settled, the newest settled snapshot is what is served |
| WeightServing.NextRevisionIsNew | src/hypercluster/weight_push.py:266-282 | The next revision is determined and never names a stored snapshot |
| WeightServing.PushStore.LatestSnapshot | src/hypercluster/weight_push.py:285-310 | The ordered query finds the greatest eligible epoch and revision, or says there is none |
| WeightServing.PushStore.LoadRawWeights | src/hypercluster/weights.py:63-97 | Settled snapshots first, then any that is neither rejected nor invalid, else live aggregation |
| WeightServing.PushStore.NextRevision | src/hypercluster/weight_push.py:266-282 | One past the highest revision of the epoch, 1 for a new epoch |
| WeightServing.PushStore.PreparePush | src/hypercluster/weight_push.py:577-700 | The first session of a push, uninterrupted, writes exactly the specified rows |
| WeightServing.PushStore.RecordReply | src/hypercluster/weight_push.py:742-830 | The last session of a push, uninterrupted, writes exactly the specified rows |
| Incentive.Clamp | src/hypercluster/domain/incentive.py:34-51 | Keeps exactly the named keys above the dust floor, unchanged |
| Incentive.NormalizeSumsToOne | src/hypercluster/domain/incentive.py:109-120 | Any mass becomes positive shares summing to 1, and normalising again changes nothing |
| Incentive.FinalizeSumsToOneOrEmpty | src/hypercluster/domain/incentive.py:123-145 | The emission map sums to 1 or is empty, empty exactly if no shaped mass exceeds the dust floor |
| Incentive.TopKRespects | src/hypercluster/domain/incentive.py:54-71 | Top-k never drops a key that ranks above a kept one, ties included |
| Incentive.MaxFractionRespects | src/hypercluster/domain/incentive.py:74-106 | Capping never reverses two keys |
| Incentive.EmissionFollowsRanking | src/hypercluster/domain/incentive.py:54-145 | For every top-k, cap and dust setting, a key ranked above another never gets less weight, an absent key counting as 0 |
| EmissionLaws.TopKKeepsSurvivors | src/hypercluster/domain/incentive.py:54-71 | Top-k keeps exactly the keys with fewer than k better ones, counted over all positive masses, ties by name |
| EmissionLaws.ShapedIs | src/hypercluster/domain/incentive.py:54-145 | The policies leave exactly the survivors of top-k, each cut to the fraction of the survivors' total |
| EmissionLaws.FinalizeIs | src/hypercluster/domain/incentive.py:109-145 | The emission map holds what is left above the dust floor, and times the total gives it back |
| RealMaps.RankingIsUnique | src/hypercluster/domain/aggregation.py:312-332 | Mass descending, then key: the leaderboard order is unique |
| RealMaps.RankingIsSorted | src/hypercluster/domain/aggregation.py:312-332 | Any earlier leaderboard row is ahead of any later one |
| ShareCaps.UncappedNeverLose | src/hypercluster/domain/incentive.py:74-120 | A key under the cap never loses share to the cap |
| ShareCaps.CapNeverConcentrates | src/hypercluster/domain/incentive.py:74-120 | No final share exceeds the largest original share |
| ShareCaps.CapHoldsIffNothingIsCut | src/hypercluster/domain/incentive.py:74-120 | The final shares obey the cap exactly if no share exceeded it before |
| ShareCaps.PostedSumIsOneIff | src/hypercluster/weight_push.py:404-446 | The posted sum is at most 1, and 1 exactly if every key with weight is a hotkey |
| ShareCaps.PositivePrefix | src/hypercluster/domain/aggregation.py:312-332 | The positive rows are a prefix of the leaderboard, in its order |
| ShareCaps.SurvivorsAreLeaderboardHead | src/hypercluster/domain/incentive.py:54-71 | Top-k survivors are exactly the first k positive leaderboard rows (all of them if there are fewer), with unchanged mass |
| ShareCaps.WeightSum | src/hypercluster/domain/incentive.py:23-31 | The loop is the plain sum of the non-negative entries |
| ShareCaps.ApplyMaxFraction | src/hypercluster/domain/incentive.py:74-106 | The loop clamps every entry to the fraction of the total, with all its early exits |
| Aggregation.AggregateScoreRows | src/hypercluster/domain/aggregation.py:203-247 | The two loops give exactly the named hotkeys; per hotkey and per role the honest mass in full and the self-dealt mass damped, the number of rows and the number of self-deals with mass |
| Aggregation.DescribedAccounts | src/hypercluster/domain/aggregation.py:103-247 | The damping law: mass is the raw sum of honest rows plus one minus the damping, within 0 and 1 and one half by default, times the raw sum of self-deals, in total and per role |
| Aggregation.AddOne | src/hypercluster/domain/aggregation.py:219-236 | One row adds its damped mass to its role; without mass it is only counted |
| Aggregation.RolesAddUp | src/hypercluster/domain/aggregation.py:238-247 | A hotkey's mass is the sum over its roles, and a role without rows has none |
| Aggregation.PermutationInvariant | src/hypercluster/domain/aggregation.py:203-247 | The order of score rows does not matter to any per-hotkey sum |
| Aggregation.MassBounds | src/hypercluster/domain/aggregation.py:103-125 | Damped mass lies between (1 - damping) times the raw sum and the raw sum, and equals it without self-deals |
| Aggregation.KeysAddUp | src/hypercluster/domain/aggregation.py:203-262 | Per-hotkey sums add up to the sum over all rows that name a hotkey |
| Aggregation.AggregatesTotal | src/hypercluster/domain/aggregation.py:203-262 | Score counts total the rows with a hotkey, and the aggregates their damped mass |
| PointsLedger.EarnKeepsInv | src/hypercluster/domain/points.py:414-560 | One scored attempt keeps the books and only appends to the ledger |
| PointsLedger.EveryRunIsConserved | src/hypercluster/domain/points.py:318-560 | In every reachable state a balance is the sum of its hotkey's deltas, balances total all deltas, `balance_after` is the running sum, every delta is positive and each attempt has at most one row |
| PointsLedger.AttemptMintsOnce | src/hypercluster/domain/points.py:441-448 | Replaying an attempt after any run, re-scored, re-priced or re-assigned, changes nothing |
| PointsLedger.MintsIff | src/hypercluster/domain/points.py:414-500 | Points are minted exactly for the first positive score of a named attempt while earning is on; with price weighting off the delta is composite times scale |
| PointsLedger.EarnWrites | src/hypercluster/domain/points.py:414-560 | A mint is worth composite times scale times price weight, in one ledger row and on the hotkey's balance alone; nothing else writes |
| PointsLedger.PriceWeightIs | src/hypercluster/domain/points.py:101-152 | The price weight is catalog over list price pulled to the nearer bound, whichever way round the bounds are set, 1 if off, and neutral if unknown |
| PointsLedger.PriceWeightPositive | src/hypercluster/domain/points.py:101-152 | The price weight is positive for every setting, so it never decides whether points are minted |
| PointsLedger.BargainEarnsMoreIff | src/hypercluster/domain/points.py:101-152 | With a floor up to 1 and a ceiling above, exactly an offer under the catalog price earns extra, within the clamp |
| PointsLedger.CheaperNeverEarnsLess | src/hypercluster/domain/points.py:101-152 | A cheaper offer never earns a smaller weight than a dearer one |
| PointsLedger.LedgerStore.UpsertBalance | src/hypercluster/domain/points.py:318-346 | Adds the delta to the hotkey's row, creating it if missing, and no other |
| PointsLedger.LedgerStore.EarnFromScore | src/hypercluster/domain/points.py:414-560 | Writes ledger row and balance together or nothing |
| RankMaps.BuildSimRankmap | src/hypercluster/domain/job_lifecycle.py:111-162 | Nested loops with an inner break place rank r at node r div nproc, local r mod nproc, as far as the grid reaches |
| RankMaps.BuildReportRankmap | src/hypercluster/domain/job_lifecycle.py:259-275 | The report's loops, with both breaks and dimensions of at least one, do the same |
| RankMaps.SlotsAreDistinct | src/hypercluster/domain/job_lifecycle.py:145-162 | No two ranks share a slot |
| RankMaps.BuildersAgreeIff | src/hypercluster/domain/job_lifecycle.py:939-949 | For positive dimensions all three builders agree exactly if the grid is large enough |
| RankMaps.UniqueNodeIdsFromRankmap | src/hypercluster/fabric/report.py:29-40 | The loop lists each non-blank node once, in order of appearance |
| RankMaps.LayoutNodes | src/hypercluster/fabric/report.py:29-40 | A rankmap uses exactly the first ceil(ranks / nproc) nodes, in order |
| RankMaps.FullGridUsesAllNodes | src/hypercluster/domain/jobs.py:113-130 | An admitted job's rankmap uses every one of its nodes |
| RankMaps.BundleEntries | src/hypercluster/fabric/report.py:43-83 | One entry per node with the digest of its last report, or a stub |
| RankMaps.BundleIsComplete | src/hypercluster/fabric/report.py:95-183 | Every bundle passes the completeness check, whatever the rankmap and the reports |
| RankMaps.DroppedNodeIsNoticed | src/hypercluster/fabric/report.py:172-183 | A bundle missing any node of a rankmap fails it |
| RankMaps.NodeHoldsBlock | src/hypercluster/domain/job_lifecycle.py:145-162 | Node i holds the ranks from i times nproc on, in the order of its slots |
| RankMaps.NodesByFirstUse | src/hypercluster/fabric/report.py:29-40 | The nodes of a rankmap are listed in the order of their first rank |
| RankMaps.DecimalRoundTrip | src/hypercluster/domain/job_lifecycle.py:148-148 | The digits of a simulated node's id say its number |
| RankMaps.EntryIs | src/hypercluster/fabric/report.py:43-83 | A node's bundle entry is its last report's digest, or the stub if it has none |
| RankMaps.BundleNodesAre | src/hypercluster/fabric/report.py:95-120 | A bundle covers the rankmap's nodes, or the simulated ones, at least one, when it names none |
| FabricGates.EvaluateRequireIb | src/hypercluster/fabric/gates.py:417-465 | Renting is allowed exactly if not required, or no node lacks active InfiniBand and the rate policy agrees |
| FabricGates.SoftPolicyNeverRejects | src/hypercluster/fabric/gates.py:145-231 | Under the module's soft policy the rate check is: some reports, all active |
| FabricGates.StrictRejectsIff | src/hypercluster/fabric/gates.py:196-231 | Only the strict policy rejects an all-active domain, exactly if two rates differ by more than the ratio |
| FabricGates.ActiveNodesHaveRates | src/hypercluster/fabric/gates.py:109-131 | Every active node has a positive rate, so the unknown-rate branch is never taken |
| FabricGates.ActiveIff | src/hypercluster/fabric/gates.py:109-124 | A node is active exactly for a named device with a rate in none of the states down, disabled, inactive, error |
| FabricGates.NodeRateIs | src/hypercluster/fabric/gates.py:127-131 | A node's rate is the reported one, else its fastest device's |
| FabricGates.StrictRatioIs | src/hypercluster/fabric/gates.py:145-231 | Two active nodes may share a strict domain exactly within a ratio of four |
| FabricGates.ModeTable | src/hypercluster/fabric/gates.py:234-345 | Transport and failure of every mode on every kind of reports |
| FabricGates.ByIdIsLast | src/hypercluster/fabric/gates.py:100-106 | The report that counts for a node is its last |
| FabricGates.IbModeIff | src/hypercluster/fabric/gates.py:234-345 | Mode `ib` accepts exactly non-empty, all-active reports, and never fails for rates |
| FabricGates.OnlyIbModeFails | src/hypercluster/fabric/gates.py:234-345 | Every supported mode succeeds except `ib` without all-active reports; failure codes appear exactly on failure |
| FabricGates.NoneMissing | src/hypercluster/fabric/gates.py:417-465 | No node is missing exactly if every node's last report is active |
| FabricGates.RentAgreesWithMode | src/hypercluster/fabric/gates.py:417-465 | The rent check agrees with mode `ib` on the selected reports: it passes exactly if every node's last report is active, and rates never decide |
| FabricGates.NcclAgreesWithMode | src/hypercluster/fabric/gates.py:522-575 | NCCL is told to use InfiniBand exactly in mode `ib` or `auto` on reports that mode `ib` accepts, which is exactly when the mode check resolves to the `ib` transport |
| NonceAuth.Unexpired | src/hypercluster/api/auth.py:209-212 | Pruning removes exactly the expired nonces |
| NonceAuth.AcceptedIff | src/hypercluster/api/auth.py:160-236 | A request is accepted exactly if it is signed, within ttl of the whole second, and its nonce is not held unexpired; then the nonce is held for a day; any other outcome leaves the table |
| NonceAuth.AcceptedAreGenuine | src/hypercluster/api/auth.py:160-236 | Over every run each accepted request is signed and within the skew window |
| NonceAuth.NoTokenTwice | src/hypercluster/api/auth.py:160-229 | With room in the nonce lifetime no hotkey, nonce and timestamp is accepted twice in any run, although nonces are pruned |
| NonceAuth.ForgottenTooSoon | src/hypercluster/api/auth.py:206-229 | Without it, two requests carrying the same token are both accepted |
| NonceAuth.AtMostOnceIff | src/hypercluster/api/auth.py:160-229 | The exact condition on skew window, request time and nonce lifetime |
| NonceAuth.NonceTable.AuthenticateMiner | src/hypercluster/api/auth.py:160-236 | Checks, prunes and inserts; a refused request leaves the table as it was |
| PriceCatalog.Fault | src/hypercluster/domain/pricing.py:162-211 | No complaint exactly for a key, a positive price and no currency but USD |
| PriceCatalog.UpsertWrites | src/hypercluster/domain/pricing.py:375-459 | An upsert sets every column of its key's row and appends the same row to the history, or names its fault and writes nothing |
| PriceCatalog.DisableWrites | src/hypercluster/domain/pricing.py:462-500 | Disabling changes the flag alone and appends the row |
| PriceCatalog.SeedWrites | src/hypercluster/domain/pricing.py:580-665 | A seed appends one active dollar change per named entry, in order, or nothing at all |
| PriceCatalog.SeedStaysFaithful | src/hypercluster/domain/pricing.py:580-665 | Seeding keeps catalog and history equal, even when it stops at a bad entry |
| PriceCatalog.ReplayIsLastChange | src/hypercluster/domain/pricing.py:274-304 | The last change of a key says what its row is |
| PriceCatalog.ReplayKeys | src/hypercluster/domain/pricing.py:274-304 | Exactly the keys with a change have a row |
| PriceCatalog.RunStaysFaithful | src/hypercluster/domain/pricing.py:375-500 | After any run of upserts, disables and seeds, folding the history gives the catalog, and the history only grew at its end |
| PriceCatalog.KeysNeverLeave | src/hypercluster/domain/pricing.py:462-500 | A key once in the catalog never leaves it |
| PriceCatalog.ResolveIsDetermined | src/hypercluster/domain/pricing.py:503-561 | Resolving has one answer, and never an inactive row |
| PriceCatalog.ResolveIs | src/hypercluster/domain/pricing.py:503-561 | The answer is the key's own active row, else the active row of the family that took effect last, else nothing |
| PriceCatalog.ServedExactlyWhileActive | src/hypercluster/domain/pricing.py:375-561 | An upserted active price is what its key resolves to, effective now; a disabled key is no answer to any request and keeps its price and date |
| PriceCatalog.PrefersOrder | src/hypercluster/domain/pricing.py:503-561 | The family fallback compares rows by a total, transitive order |
| PriceCatalog.CatalogStore.UpsertCatalogPrice | src/hypercluster/domain/pricing.py:375-459 | Writes row and history together or complains and writes nothing |
| PriceCatalog.CatalogStore.DisableCatalogPrice | src/hypercluster/domain/pricing.py:462-500 | Switches a known key off, keeping its price and date |
| PriceCatalog.CatalogStore.ResolveCatalogPrice | src/hypercluster/domain/pricing.py:503-561 | The exact active key, else the best active row of the family, else nothing |
| PriceCatalog.CatalogStore.SeedDefaultCatalog | src/hypercluster/domain/pricing.py:580-665 | The loop equals the fold, its counts are exact, a failed seed leaves no trace, and only-if-empty on a filled catalog changes nothing |
| PriceRaces.UninterruptedWrites | src/hypercluster/domain/pricing.py:375-500 | An upsert or disable whose reading and writing are not interleaved is the one-step session |
| PriceRaces.PutKeepsFaithfulIff | src/hypercluster/domain/pricing.py:404-459 | A commit keeps catalog and history equal exactly if every column it leaves alone still has the value it read |
| PriceRaces.StaysFaithfulIff | src/hypercluster/domain/pricing.py:375-500 | Catalog and history agree at every moment of a run exactly if each commit fits the row it meets |
| PriceRaces.ConfirmationBreaks | src/hypercluster/domain/pricing.py:428-459 | From an empty catalog, an upsert that confirms the price it read beside one that raises it leaves the raised price under the confirming history row |
| PriceRaces.AlwaysFaithfulIff | src/hypercluster/domain/pricing.py:375-665 | Catalog and history agree after every run of n sessions exactly if n is at most 1 |

## Left out

- FastAPI routes, Typer CLI, HTTP clients, settings loading, QA scripts: plumbing without an invariant.
- SSH and GPU probes and the topology planner: a placement is an input, a graph digest or a refusal.
- Scoring, proof rows and TEE quotes: scores are inputs of the aggregation and the ledger; a scoring step is
  the status change it makes.
- Digests, HMAC, substrate signatures, JSON, base64 and the master's request schema: arbitrary functions or booleans.
- Float rounding and the coercion of odd numeric inputs: reals, with `None` for what is not finite.
- String trimming, case folding and length limits of keys and ids: strings arrive trimmed.
- Exceptions inside a worker's side effects: a rolled-back step is a step that did not happen.
- JobStore.JobStore.AdvanceJobOneStep: does not model the separate commits of the up to three edges of one call; ClaimRaces takes each edge as a claim of its own.
- JobStore.JobStore.DrainJobsOnce: does not model a step that raises, and rows that other sessions change during the round; ClaimRaces does the latter.
- JobStore.JobStore.AdmitJob: does not model the image, entrypoint, enum and environment checks one by one; their first fault is an input.
- JobStore.JobStore.PostJobResults: does not model the proof row, the score seal, the attempt's `started_at` fallback and two first posts of one attempt number at once, of which the unique key lets one through.
- MarketRuns.EveryRunIsConsistent: does not model sessions side by side; MarketRaces and the modules on top of it do.
- MarketRuns.TenantIsProtected: the same; TenantMarks gives the exact condition side by side.
- PriceRaces.AlwaysFaithfulIff: takes a seed as one step; it holds the write transaction from its first row on.
- A row that one session loads twice keeps its first reading in the original; the models read it again. The fabric
  scan's writes to a node's InfiniBand flag, and the simulation route that ages heartbeats, are no sessions of the model.
- MarketStore.MarketStore.RentOffer: does not model SSH endpoints; the latest fabric reports are an input.
- MarketStore.MarketStore.RegisterNode: does not model provider lookup and suspension, hardware fields and inventory parsing; the InfiniBand flag is an input.
- MarketStore.MarketStore.CreateListedOffer: does not keep the soft price band's flag, the catalog snapshot and the region and TEE labels.
- WeightServing.PushStore.PreparePush: does not model the insert that fails when another pusher stored the same key meanwhile; WeightRaces does.
- WeightServing.PushStore.RecordReply: does not model writers between its read and its write; WeightRaces does.
- The `updated_at` stamps, forensic details blobs, public serialisers, listing and paging queries.
- Windowed selection of score rows: the aggregation takes the selected rows.
