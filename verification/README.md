# Verified models of the backend's durable protocols

This project models the transactional protocols of the backend's `database` package in Dafny and proves what they
promise over whole runs. Each Firestore transaction is one atomic step on a small store; workers, pods, clients and
devices interleave those steps in any order, any number of times. Every theorem is about all such runs.

Six protocols are covered.

- **Conversation finalization**: an outbox of jobs with leases fenced by (dispatch generation, lease epoch), a fanout
  boundary, BYOK blocking, replay, dead-lettering, abandonment, and sharded counters written in the same transactions
  (`FinalizationJobs`, `FinalizationProjection`, `FinalizationLeases`, `FinalizationAnswers`, `FinalizationStore`); and
  the bounded recovery sweeps whose cursor several pods share by compare-and-swap (`RecoverySweep`).
- **Task candidates**: idempotency aliases, coalescing of equal work, atomic acceptance with task and outbox row, and
  the two-phase legacy promotion (`Candidates`, `CandidateLifecycle`, `CandidateIdentity`, `CandidateTasks`,
  `CandidateAnswers`, `CandidateStore`).
- **Chat-first intents**: delivery, dead letters, one requeue, and accounting of agent turns (`ChatFirstIntents`,
  `ChatFirstDelivery`, `ChatFirstAnswers`, `ChatFirstWitnesses`, `ChatFirstStore`).
- **Desktop release channels**: captured Beta admission, pointer compare-and-swap, immutable manifests and break-glass
  (`DesktopChannels`, `DesktopChannelSafety`, `DesktopChannelAnswers`, `DesktopChannelStore`).
- **Chat journal**: keyset pages with a scan budget (`ChatPaging`) and revision arbitration (`MessageRevisions`).
- **In-memory cache**: a size-bounded LRU cache (`LruCache`) and its single-flight protocol (`SingleFlight`).

A protocol has a specification module (a state, one function per transaction, `Step` and `Run`), one or more modules of
theorems over runs, a module that says of each transaction exactly when it takes effect and what it then writes, and a
class whose methods follow the source statement by statement over fields updated in place; each method is proved to
compute exactly the specification function the theorems are about. Ids derived by hashing are taken to be
injective, uuid tokens to be new, and clock readings, query verdicts and foreign validations are parameters.

Some natural statements are false of the code. For these the model keeps the code as it is, gives a concrete failing
case, and proves when exactly the statement holds: a sweep that fills its limit inside a short last page reports
`exhausted` too early; the replay transaction does not look at the key requirement; a cold start does not consult dead
letters, so it can be reopened after delivery and fetched without bound; `content_blocks` does not converge by revision;
and a reader whose clock is behind a writer's can see two open suggestions for one piece of work.
Where the docstring of `get_or_create_cold_start_intent` promises exactly one cold-start intent per generation, the
model follows the code.

`dafny verify dfyconfig.toml` checks the project.

## Model

| member | source | states |
|---|---|---|
| `FinalizationProjection.CountersExactInEveryRun` | backend/database/conversation_finalization_jobs.py:221-242 | In every state of every run, each counter of each shard equals the number of admitted jobs of that shard in that status or with that outcome; receipt-only and pre-generation jobs never disturb it |
| `FinalizationProjection.RolloutIsExact` | backend/database/conversation_finalization_jobs.py:211-242 | A store with any pre-generation jobs and empty counters satisfies that invariant, so runs may start there |
| `FinalizationProjection.ShardAddsUp` | backend/database/conversation_finalization_jobs.py:221-242 | Accepted is the sum of the five statuses, completed is success plus stale, dead letter is failure, shard by shard |
| `FinalizationProjection.FanInCountsJobs` | backend/database/conversation_finalization_jobs.py:2033-2112 | Summing a counter over the shards counts the jobs themselves |
| `FinalizationProjection.GetSummary` | backend/database/conversation_finalization_jobs.py:2043-2075 | The summary loop reads every shard once; each field is the fan-in of its counter |
| `FinalizationProjection.OldestNonterminalAge` | backend/database/conversation_finalization_jobs.py:2077-2097 | No unfinished job, BYOK or not, is older than the reported age, and one has exactly that age unless it is zero |
| `FinalizationProjection.SummaryOfRun` | backend/database/conversation_finalization_jobs.py:2033-2112 | For any reachable store: accepted = success + failure + stale + nonterminal + blocked, and accepted and nonterminal count real jobs |
| `FinalizationLeases.StepEvolves` | backend/database/conversation_finalization_jobs.py:478-948 | One relation that every transaction keeps for every job: epochs grow, a new lease has a greater epoch, terminal fields are frozen, the fanout key is fixed |
| `FinalizationLeases.TokensNeverRepeat` | backend/database/conversation_finalization_jobs.py:478-543 | Over any interleaving no (job, generation, epoch) token is issued twice |
| `FinalizationLeases.CurrentOrDead` | backend/database/conversation_finalization_jobs.py:174-179 | A current token stays current or is dead after any step |
| `FinalizationLeases.LeaseEndsWhen` | backend/database/conversation_finalization_jobs.py:519-534 | A reclaim, retry, replay or abandonment kills the token that held the job |
| `FinalizationLeases.DeadForever` | backend/database/conversation_finalization_jobs.py:174-179 | A dead token never becomes current again, in any run |
| `FinalizationLeases.DeadTokensWriteNothing` | backend/database/conversation_finalization_jobs.py:572-948 | After any further run, any of the six writes presenting a dead token leaves job, conversations and counters as they were |
| `FinalizationLeases.LiveLeaseIsExclusive` | backend/database/conversation_finalization_jobs.py:478-543 | Before its lease expires, no claim, resume, replay, abandonment or write under another token changes a leased job; only a meeting receipt may be added |
| `FinalizationLeases.LeaseIsHeldUntilExpiry` | backend/database/conversation_finalization_jobs.py:478-543 | So over any run of others before the deadline the holder stays current and the job stays as it was |
| `FinalizationLeases.TerminalIsAbsorbing` | backend/database/conversation_finalization_jobs.py:572-649 | Completed and dead_letter, with their outcome, are kept by every run |
| `FinalizationLeases.CompletedMeansDeliveredOrFenced` | backend/database/conversation_finalization_jobs.py:572-649 | A completed job is a success with fanout completed or stale with fanout fenced, in every run |
| `FinalizationLeases.ModeAndReceiptAreImmutable` | backend/database/conversation_finalization_jobs.py:284-391 | The persisted processing mode, the key requirement and a recorded meeting receipt never change, in any run |
| `FinalizationLeases.OneFanoutKeyPerJob` | backend/database/conversation_finalization_jobs.py:668-674 | All fanout claims of one job in one run carry one key |
| `FinalizationLeases.CompletedFanoutIsNeverClaimedAgain` | backend/database/conversation_finalization_jobs.py:709-807 | After fanout is marked completed, or the job has ended, no later fanout claim succeeds, although abandonment may overwrite the mark |
| `FinalizationLeases.FailureClosesItsConversation` | backend/database/conversation_finalization_jobs.py:884-948 | Dead-lettering leaves no conversation it still owns on processing and touches no other |
| `FinalizationLeases.StrandedRowIsAbandoned` | backend/database/conversation_finalization_jobs.py:1861-1971 | A row selected by the abandonment sweep is closed by the transaction it feeds, unless it moved; a bound conversation is left processing only if deferred |
| `FinalizationLeases.ReplayBreaksALaneExactlyWhen` | backend/database/conversation_finalization_jobs.py:1271-1319 | The replay transaction gives a job the wrong recovery lane exactly when it is aimed at a replayable BYOK job |
| `FinalizationLeases.ReplayCanBreakALane` | backend/database/conversation_finalization_jobs.py:1271-1319 | A run from rollout (create with BYOK, resume, replay) after which it has |
| `FinalizationLeases.LanesHoldExactlyWhen` | backend/database/conversation_finalization_jobs.py:1271-1319 | Over any run every unfinished job is in its own recovery lane at every point, if and only if no BYOK job is ever replayed |
| `FinalizationLeases.EveryJobStaysInItsLane` | backend/database/conversation_finalization_jobs.py:1337-1347 | With replays driven by the sweep, non-BYOK jobs always carry reconcile_after_at and BYOK jobs never do, in every run |
| `FinalizationLeases.LanesAreDisjoint` | backend/database/conversation_finalization_jobs.py:1815-1842 | Sweep-driven replay never changes a BYOK job and abandonment never changes another |
| `FinalizationAnswers.ClaimSucceedsExactlyWhen` | backend/database/conversation_finalization_jobs.py:478-512 | A claim succeeds if and only if the job is queued or its lease has run out, generation and identity fit, and its key is allowed |
| `FinalizationAnswers.RefusedClaimSaysWhy` | backend/database/conversation_finalization_jobs.py:478-512 | A refused claim writes nothing and names the first reason that applies |
| `FinalizationAnswers.ClaimGrantsTheLease` | backend/database/conversation_finalization_jobs.py:513-543 | A granted lease is held for exactly the seconds asked for, under a new epoch and attempt |
| `FinalizationAnswers.OthersAreToldItIsLeased` | backend/database/conversation_finalization_jobs.py:504-511 | From a claim until its seconds are over, whatever others do, every other claim of that generation is told it is leased |
| `FinalizationAnswers.CompletionTakesEffectExactlyWhen` | backend/database/conversation_finalization_jobs.py:572-603 | Completion takes effect exactly under the current lease after fanout; a repeat by the same epoch is confirmed |
| `FinalizationAnswers.FencingTakesEffectExactlyWhen` | backend/database/conversation_finalization_jobs.py:622-649 | Fencing takes effect exactly under the current lease while fanout is pending |
| `FinalizationAnswers.FanoutIsClaimedExactlyWhen` | backend/database/conversation_finalization_jobs.py:697-760 | Under the current lease fanout is claimed if its conversation is completed, kept and bound, and the job is fenced otherwise |
| `FinalizationAnswers.FanoutKeyIs` | backend/database/conversation_finalization_jobs.py:668-674 | The stored key, or one naming conversation and revision |
| `FinalizationAnswers.DigitsReadBack` | backend/database/conversation_finalization_jobs.py:668-674 | The revision in the key is spelled in decimal: reading it back gives the number |
| `FinalizationAnswers.FanoutCompletionTakesEffectExactlyWhen` | backend/database/conversation_finalization_jobs.py:784-807 | Fanout completion takes effect exactly under the current lease |
| `FinalizationAnswers.RetryTakesEffectExactlyWhen` | backend/database/conversation_finalization_jobs.py:829-859 | A retry takes effect exactly under the current lease and queues the job in its own lane |
| `FinalizationAnswers.DeadLetterTakesEffectExactlyWhen` | backend/database/conversation_finalization_jobs.py:884-930 | A dead letter takes effect exactly under the current lease, with its evidence |
| `FinalizationAnswers.DeadLetterClosesExactlyItsConversation` | backend/database/conversation_finalization_jobs.py:931-948 | It fails exactly the conversation the job is still processing |
| `FinalizationAnswers.JobIsCreatedExactlyWhen` | backend/database/conversation_finalization_jobs.py:284-342 | A job is made exactly for an admissible, accepted conversation without one, under the next revision |
| `FinalizationAnswers.NewJobStartsClean` | backend/database/conversation_finalization_jobs.py:343-391 | Every field of a new job and of its conversation |
| `FinalizationAnswers.OtherwiseNoJobIsCreated` | backend/database/conversation_finalization_jobs.py:298-342 | An existing job is returned or bound again; every refusal names its reason and writes nothing |
| `FinalizationAnswers.ResumeTakesEffectExactlyWhen` | backend/database/conversation_finalization_jobs.py:435-463 | Exactly a blocked BYOK job is resumed, outside the replay sweep |
| `FinalizationAnswers.ReplayedExactlyWhen` | backend/database/conversation_finalization_jobs.py:1271-1319 | A job is replayed exactly if its lease has run out or it lay dispatched and queued for the whole delay |
| `FinalizationAnswers.AbandonedExactlyWhen` | backend/database/conversation_finalization_jobs.py:1861-1942 | A BYOK job is abandoned exactly if it is as the sweep saw it, held by nobody, and idle since the cutoff |
| `FinalizationAnswers.AbandonmentClosesExactlyItsConversation` | backend/database/conversation_finalization_jobs.py:1943-1971 | It completes exactly the conversation still processed for it, unless deferred |
| `FinalizationAnswers.AbandonmentNamesTheOutcome` | backend/database/conversation_finalization_jobs.py:1955-1971 | The outcome tells why no conversation was closed |
| `FinalizationAnswers.ReceiptIsRecordedExactlyWhen` | backend/database/conversation_finalization_jobs.py:976-1012 | A verdict is recorded exactly for an existing conversation and a job of it |
| `FinalizationAnswers.FirstVerdictIsKept` | backend/database/conversation_finalization_jobs.py:1013-1081 | The first verdict stays on the job, due ten minutes later, and is what the conversation shows |
| `FinalizationAnswers.ReceiptJobIsAlreadyOver` | backend/database/conversation_finalization_jobs.py:1041-1066 | A receipt without a job makes a completed one outside the counters |
| `FinalizationAnswers.HolderBringsItToSuccess` | backend/database/conversation_finalization_jobs.py:572-807 | Whoever holds the lease of a job whose conversation is ready brings it to success |
| `FinalizationAnswers.FreeJobCanSucceed` | backend/database/conversation_finalization_jobs.py:478-807 | A job nobody holds can be claimed at its generation and worked through to success |
| `FinalizationAnswers.LostJobIsFreeAfterReplay` | backend/database/conversation_finalization_jobs.py:1271-1319 | A lost job is free after a replay, under the next generation, and the old token is dead |
| `FinalizationStore.Store.RecordProjectionDelta` | backend/database/conversation_finalization_jobs.py:221-242 | Increments exactly the named fields of the job's shard, and nothing for jobs without one |
| `FinalizationStore.Store.CreateOrGetIntent` | backend/database/conversation_finalization_jobs.py:284-391 | Admission: new state and intent as specified, including the processing mode and every refusal |
| `FinalizationStore.Store.ResumeBlockedByokJob` | backend/database/conversation_finalization_jobs.py:435-463 | Blocked job back to queued, counters moved with it |
| `FinalizationStore.Store.ClaimFinalizationJob` | backend/database/conversation_finalization_jobs.py:478-543 | Lease claim with all refusals in order |
| `FinalizationStore.Store.MarkFinalizationCompleted` | backend/database/conversation_finalization_jobs.py:572-603 | Completion under the current lease after fanout; idempotent by epoch |
| `FinalizationStore.Store.MarkFinalizationFenced` | backend/database/conversation_finalization_jobs.py:622-649 | Fencing under the current lease before fanout |
| `FinalizationStore.Store.ClaimFinalizationFanout` | backend/database/conversation_finalization_jobs.py:709-760 | Fanout claim, or fencing when the conversation no longer admits it |
| `FinalizationStore.Store.MarkFinalizationFanoutCompleted` | backend/database/conversation_finalization_jobs.py:784-807 | Fanout completion under the current lease |
| `FinalizationStore.Store.MarkFinalizationRetryable` | backend/database/conversation_finalization_jobs.py:829-859 | Back to queued in the right lane, with the failure code |
| `FinalizationStore.Store.MarkFinalizationDeadLetter` | backend/database/conversation_finalization_jobs.py:884-948 | Dead letter with its retry count and failure code, and closing of the bound conversation |
| `FinalizationStore.Store.ClaimFinalizationReplay` | backend/database/conversation_finalization_jobs.py:1271-1319 | Replay bumps the generation of a stale job |
| `FinalizationStore.Store.AbandonByokFinalizationJob` | backend/database/conversation_finalization_jobs.py:1861-1971 | Abandonment fenced by status, generation, epoch and idle time |
| `FinalizationStore.Store.RecordMeetingReceipt` | backend/database/conversation_finalization_jobs.py:976-1081 | Receipt recorded once on the job, or on a new receipt-only job without a shard, and its verdict projected to the conversation |
| `FinalizationStore.Store.GetReplayCandidates` | backend/database/conversation_finalization_jobs.py:1337-1347 | The loop returns the page without the rows that are no longer queued or leased, in page order |
| `RecoverySweep.Sweep` | backend/database/conversation_finalization_jobs.py:1390-1451 | The paged loop collects, stops, reports and moves its cursor exactly as a row-at-a-time reference |
| `RecoverySweep.ScanPage` | backend/database/conversation_finalization_jobs.py:1410-1440 | One page: stops at the limit or at the row that exceeds the budget |
| `RecoverySweep.SweepPages` | backend/database/conversation_finalization_jobs.py:1390-1444 | The page loop stops for one of the stated reasons |
| `RecoverySweep.SweepIsBounded` | backend/database/conversation_finalization_jobs.py:1390-1451 | At most max_scan rows are examined and at most limit collected |
| `RecoverySweep.ExhaustedBelowLimitReachedTheTail` | backend/database/conversation_finalization_jobs.py:1438-1444 | Below the limit, exhausted means every row past the cursor was examined |
| `RecoverySweep.ExhaustedHidesRowsExactlyWhen` | backend/database/conversation_finalization_jobs.py:1438-1444 | exhausted hides unexamined rows if and only if some row fills the limit within the budget inside a short last page with rows behind it |
| `RecoverySweep.ExhaustedCanHideARow` | backend/database/conversation_finalization_jobs.py:1438-1444 | A five-row collection for which it does |
| `RecoverySweep.RewindsSilentlyExactlyWhen` | backend/database/conversation_finalization_jobs.py:1444-1451 | The cursor is sent to the top without exhausted exactly when a bound is not positive |
| `RecoverySweep.RunKeepsInv` | backend/database/conversation_finalization_jobs.py:1483-1505 | Under any interleaving of pods, whoever holds the current generation holds the current cursor |
| `RecoverySweep.AdvancesTileTheRows` | backend/database/conversation_finalization_jobs.py:1483-1528 | Successful advances tile the rows: each window starts where the previous one stopped or at the top after a wrap |
| `RecoverySweep.AdvancesBetweenWrapsFormALap` | backend/database/conversation_finalization_jobs.py:1483-1528 | The advances between two wraps form one lap from the top |
| `RecoverySweep.LapCovers` | backend/database/conversation_finalization_jobs.py:1483-1528 | Every row up to the end of a lap lies in a window of the lap |
| `RecoverySweep.FullLapCollectsEveryEligibleRow` | backend/database/conversation_finalization_jobs.py:1390-1528 | A lap that reaches the tail collected every eligible row |
| `RecoverySweep.OnlyTheHolderAdvances` | backend/database/conversation_finalization_jobs.py:1483-1505 | An advance under the current generation commits its window and moves the cursor; any other moves nothing |
| `RecoverySweep.UndisturbedPassCommits` | backend/database/conversation_finalization_jobs.py:1460-1528 | A pod that is not interfered with commits the window at the persisted cursor |
| `RecoverySweep.EveryLapEnds` | backend/database/conversation_finalization_jobs.py:1390-1528 | Passes with positive bounds cannot stall: the lap ends after at most one pass per row left |
| `RecoverySweep.SweepCursor.AdvanceTo` | backend/database/conversation_finalization_jobs.py:1483-1505 | Compare-and-swap: a stale writer changes nothing |
| `RecoverySweep.SweepCursor.Pass` | backend/database/conversation_finalization_jobs.py:1798-1854 | One undisturbed pass of one pod: collected rows and new cursor |
| `CandidateLifecycle.StepEvolves` | backend/database/candidates.py:849-1384 | One relation that every transaction keeps for every candidate: the work is fixed, an outcome is frozen, a started promotion keeps its reservation |
| `CandidateLifecycle.EveryClaimFits` | backend/database/candidates.py:1193-1384 | In every run a started claim belongs to a pending candidate and a consumed one to the candidate it concluded |
| `CandidateLifecycle.StartedPromotionOwnsTheOutcome` | backend/database/candidates.py:1325-1384 | Once started, over any run with any number of expiries and reclaims, the candidate is pending under that reservation or accepted with exactly that task |
| `CandidateLifecycle.LaterBeginsReturnTheReservation` | backend/database/candidates.py:1345-1360 | Beginning again after any run returns the first reservation and writes nothing |
| `CandidateLifecycle.OthersCannotResolve` | backend/database/candidates.py:883-887 | While a promotion is open neither the task resolver nor a dismissal succeeds or writes |
| `CandidateLifecycle.OnlyTheTokenConcludes` | backend/database/candidates.py:1193-1227 | Reconciliation concludes an open promotion exactly for its live token, accepting its own task; everything else changes nothing |
| `CandidateLifecycle.NoMutationAfterResolution` | backend/database/candidates.py:1251-1345 | After any resolution no promotion can be claimed or begun, in any run |
| `CandidateLifecycle.SupersededForEver` | backend/database/candidates.py:1262-1299 | A promotion token replaced by a reclaim is never current again, in any run |
| `CandidateLifecycle.SupersededTokenWritesNothing` | backend/database/candidates.py:1193-1205 | Under a replaced token neither beginning nor concluding the promotion changes anything, however late |
| `CandidateLifecycle.ResolvedExactlyOnce` | backend/database/candidates.py:849-1227 | A run contains exactly one resolution of a candidate if it ends resolved, and none otherwise |
| `CandidateLifecycle.NewlyResolvedAtMostOnce` | backend/database/candidates.py:866-977 | newly_resolved is reported at most once per candidate across all resolvers |
| `CandidateLifecycle.LaterAcceptsReturnTheSameReceipt` | backend/database/candidates.py:871-880 | Every later accept returns the recorded task and time and writes nothing |
| `CandidateIdentity.RunKeepsIndexes` | backend/database/candidates.py:490-690 | In every run, whatever the clocks say, candidates sit under their own id and aliases and semantic claims resolve |
| `CandidateIdentity.SecondSuggestionExactlyWhen` | backend/database/candidates.py:562-622 | A step shows a reader a second open suggestion for one work if and only if the held one has lapsed for the writer and not yet for the reader |
| `CandidateIdentity.OneOpenSuggestionExactlyWhen` | backend/database/candidates.py:562-622 | Over any run with any clocks: never two open suggestions for one work, and the open one always held by its claim, if and only if no creation displaces one still open for the reader |
| `CandidateIdentity.OneOpenSuggestionPerWork` | backend/database/candidates.py:562-622 | For a reader no writer was ahead of, in whatever order the clocks read: at most one pending, unlapsed create candidate per generation and identity, held by the semantic claim |
| `CandidateIdentity.ClockMustNotRunBack` | backend/database/candidates.py:439-455 | A concrete run and a reader whose clock is behind, for which this fails |
| `CandidateIdentity.AliasesAreImmutable` | backend/database/candidates.py:518-560 | An alias, once written, is never changed or removed |
| `CandidateIdentity.EveryAliasResolves` | backend/database/candidates.py:518-560 | Every alias of every reachable state names an existing candidate of its generation |
| `CandidateIdentity.RetriesReturnTheSameCandidate` | backend/database/candidates.py:518-534 | A retry after any run returns the first answer and changes nothing; another proposal under the same key is refused |
| `CandidateIdentity.CreateAnswersWithTheSameWork` | backend/database/candidates.py:235-255 | Coalescing answers with a candidate for the very same work: merging never changes the identity |
| `CandidateTasks.AcceptanceWritesOneTaskAndOneRow` | backend/database/candidates.py:890-977 | Accepting a creation writes one new outbox row and one task bound to the candidate (kept if already stored under its task id), and nothing else but the candidate |
| `CandidateTasks.OneRowPerAcceptedCreation` | backend/database/candidates.py:946-962 | Over any run an outbox row exists exactly when one acceptance of that creation was reported as new, and it is bound to the accepted candidate |
| `CandidateTasks.PendingCandidateHasNoTask` | backend/database/candidates.py:890-915 | In a run whose other writers leave its derived task id alone, a pending candidate has no task and no row yet, so its acceptance makes both |
| `CandidateTasks.AcceptedChangeRewritesOneTask` | backend/database/candidates.py:825-946 | Accepting a change rewrites that one task of a matching generation: every set field takes the patched value, every other is kept, and no outbox row is written |
| `CandidateStore.MergeEvidence` | backend/database/candidates.py:300-317 | The deduplicating loop with its cap returns the first distinct references |
| `CandidateStore.FirstDistinctExtends` | backend/database/candidates.py:300-317 | The merged list is free of duplicates, capped, and extends what was kept |
| `CandidateStore.FirstDistinctMembers` | backend/database/candidates.py:300-317 | Nothing is invented, and nothing is dropped before the cap is reached |
| `CandidateStore.MergeKeepsStoredEvidence` | backend/database/candidates.py:300-317 | Stored evidence survives a merge in place; new evidence is lost only at the cap |
| `CandidateStore.MergingKeepsTheStronger` | backend/database/candidates.py:318-346 | Merging takes the stronger of both confidences and priorities, never weaker or invented ones; newer compatibility metadata wins |
| `CandidateStore.MergeCandidateAnnotations` | backend/database/candidates.py:300-346 | Merged annotations as specified |
| `CandidateStore.Store.CreateCandidate` | backend/database/candidates.py:490-690 | Creation with alias, direct hit, coalescing and insertion paths |
| `CandidateStore.Store.ResolveTaskCandidate` | backend/database/candidates.py:849-977 | Acceptance of a create or a change, with every refusal |
| `CandidateStore.Store.ResolveCandidateWithoutMutation` | backend/database/candidates.py:1102-1157 | Rejection and expiry |
| `CandidateStore.Store.ReconcileMigratedCandidate` | backend/database/candidates.py:1160-1229 | Reconciliation with and without a claim token |
| `CandidateStore.Store.ClaimCandidateForLegacyPromotion` | backend/database/candidates.py:1232-1299 | Claim, resume and reclaim with a new token |
| `CandidateStore.Store.BeginCandidateLegacyPromotion` | backend/database/candidates.py:1302-1384 | Reservation of a new, an existing or an already written task |
| `CandidateAnswers.NewCaptureJoinsExactlyWhen` | backend/database/candidates.py:562-622 | A new capture joins the claimed candidate exactly while that is pending and open, or accepted with its task of this generation active and unchanged; otherwise it makes its own |
| `CandidateAnswers.OwnCandidateCarriesTheProposal` | backend/database/candidates.py:507-527 | Its own candidate says what was proposed and closes two days later; nothing else changes |
| `CandidateAnswers.JoiningOnlyAnnotates` | backend/database/candidates.py:623-684 | Joining changes annotations of that candidate and, once accepted, of its task only |
| `CandidateAnswers.JoinedTaskGetsStronger` | backend/database/candidates.py:644-669 | The task takes over the stronger confidences and priority and keeps what it is |
| `CandidateAnswers.StoredReferencesAreKept` | backend/database/candidates.py:349-368 | Stored provenance stays in place, without duplicates |
| `CandidateAnswers.AllReferencesAreKept` | backend/database/candidates.py:349-368 | Merged provenance holds exactly the stored and the new references |
| `CandidateAnswers.NewerCompatibilityWins` | backend/database/candidates.py:318-327 | Each newer compatibility field wins and a missing one is kept |
| `CandidateAnswers.RefusedCreations` | backend/database/candidates.py:500-556 | Blank keys, stale generations and reused keys are refused without a write |
| `CandidateAnswers.AcceptedExactlyWhen` | backend/database/candidates.py:866-946 | A pending task candidate is accepted exactly if it is of the generation, not held by a promotion, validly linked and its task writable; with its receipt |
| `CandidateAnswers.AcceptingTheResolved` | backend/database/candidates.py:871-882 | An accepted candidate is answered with its receipt, a dismissed one refused |
| `CandidateAnswers.DismissedExactlyWhen` | backend/database/candidates.py:1117-1157 | A dismissal records the status asked for exactly on a resolvable candidate |
| `CandidateAnswers.ImportedExactlyWhen` | backend/database/candidates.py:1174-1229 | Legacy history is imported exactly on a resolvable candidate without a token |
| `CandidateAnswers.TokenNeedsAPromotion` | backend/database/candidates.py:1206-1207 | A token without a promotion to conclude writes nothing |
| `CandidateAnswers.ConclusionIsTimed` | backend/database/candidates.py:1208-1227 | A conclusion records its time and touches no task |
| `CandidateAnswers.RefusedAcceptanceSaysWhy` | backend/database/candidates.py:858-933 | Why a candidate is not accepted, in the order the source checks |
| `CandidateAnswers.RefusedDismissalSaysWhy` | backend/database/candidates.py:1111-1139 | Why a dismissal is refused |
| `CandidateAnswers.RefusedReconciliationSaysWhy` | backend/database/candidates.py:1174-1207 | Why a reconciliation is refused |
| `CandidateAnswers.RefusedPromotionSaysWhy` | backend/database/candidates.py:1255-1345 | Why a promotion is not claimed or begun |
| `CandidateAnswers.PromotionIsClaimedExactlyWhen` | backend/database/candidates.py:1251-1299 | A new token exactly if no lease runs; a started promotion keeps its reservation |
| `CandidateAnswers.ReservedTaskIs` | backend/database/candidates.py:1361-1378 | The preferred active task is reserved, unless the legacy write was already made |
| `CandidateAnswers.PromotionBeginsExactlyWhen` | backend/database/candidates.py:1325-1384 | A promotion begins exactly for the token of a running lease, and extends it |
| `CandidateAnswers.ClaimIsHeldUntilExpiry` | backend/database/candidates.py:1251-1299 | A claimed candidate stays pending and claimed for the whole lease, whatever others do, in any run |
| `CandidateAnswers.ClaimantConcludes` | backend/database/candidates.py:1193-1384 | So the claimant that begins within its lease gets its reservation and concludes it |
| `ChatFirstDelivery.SecondHomeExactlyWhen` | backend/database/chat_first_intents.py:509-526 | A step puts an intent in both collections exactly when a cold start or a release creates over a dead letter |
| `ChatFirstDelivery.OneHomeExactlyWhen` | backend/database/chat_first_intents.py:384-526 | For every intent and run: never in both collections at any point, if and only if it is never created over its dead letter |
| `ChatFirstDelivery.NeverInBothCollections` | backend/database/chat_first_intents.py:384-465 | Intents made by create_intent, other than re-raises, and re-raises made by release are never in both collections, in any run |
| `ChatFirstDelivery.DeliveredChangesExactlyWhen` | backend/database/chat_first_delivery_attempts.py:135-210 | A delivered row changes exactly when a second, requeueable copy is moved over it |
| `ChatFirstDelivery.DeliveredIsFinal` | backend/database/chat_first_intents.py:1120-1183 | A delivered intent without a dead-letter twin keeps its whole row through every run |
| `ChatFirstDelivery.BeyondRepairChangesExactlyWhen` | backend/database/chat_first_delivery_attempts.py:159-177 | A dead letter that is not transient, or was requeued already, changes exactly when the intent is created over it |
| `ChatFirstDelivery.BeyondRepairIsFinal` | backend/database/chat_first_delivery_attempts.py:159-177 | So every intent keeps it through every run without such a creation |
| `ChatFirstDelivery.ChargedExactlyOnceIfDelivered` | backend/database/chat_first_intents.py:675-767 | The budget was charged exactly once for each delivered agent turn, by receipt or reconciliation, and never otherwise |
| `ChatFirstDelivery.AtMost38HandOutsAndOneRequeue` | backend/database/chat_first_intents.py:709-765 | Every intent is requeued at most once and handed out by charged fetches at most 38 times, in any run |
| `ChatFirstDelivery.MeasureFallsExactlyUnless` | backend/database/chat_first_intents.py:709-765 | For every intent the measure pays for each charged fetch and requeue, if and only if the step does not create it over its dead letter |
| `ChatFirstDelivery.EveryIntentTerminates` | backend/database/chat_first_intents.py:709-765 | Every intent, cold starts included, in every run without such a creation: the measure starts at 41, pays for every charged step, and is zero exactly when delivered or beyond repair |
| `ChatFirstDelivery.NoIntentIsParkedEarly` | backend/database/chat_first_intents.py:709-765 | Every dead letter of every run carries the spent budget its reason names |
| `ChatFirstDelivery.OutOfBudgetExactlyWhen` | backend/database/chat_first_intents.py:1030-1057 | A step leaves an intent live beyond a budget exactly when it creates it over a dead letter that had used up that budget |
| `ChatFirstDelivery.NoIntentOutlivesItsBudgets` | backend/database/chat_first_intents.py:709-765 | Over any run, every intent is at no point live with 20 fetches or 3 permanent rejections, if and only if no such creation occurs |
| `ChatFirstWitnesses.BoundIsReached` | backend/database/chat_first_intents.py:709-765 | A concrete run with 38 hand-outs |
| `ChatFirstWitnesses.ColdStartCanBeReopenedAfterDelivery` | backend/database/chat_first_intents.py:468-526 | A concrete run in which a cold start is in both collections, delivered, and then reopened by the repair |
| `ChatFirstWitnesses.ColdStartIsChargedWithoutBound` | backend/database/chat_first_intents.py:509-526 | For every n a run that charges a cold start more than n times, live beyond its fetch budget |
| `ChatFirstWitnesses.ReraiseByCreateGetsASecondHome` | backend/database/chat_first_intents.py:1358-1411 | A run in which a question re-raised by create_intent and by its deferral is in both collections |
| `ChatFirstAnswers.CreationMakesAnIntentExactlyWhen` | backend/database/chat_first_intents.py:384-465 | A ready intent with the caller's content exactly if neither collection has one and the budget admits it |
| `ChatFirstAnswers.RepeatedCreationAnswersTheStoredIntent` | backend/database/chat_first_intents.py:427-447 | A repeat is answered with the stored intent exactly if its content is the same |
| `ChatFirstAnswers.ColdStartMakesAnIntentExactlyWhen` | backend/database/chat_first_intents.py:487-526 | A pending-receipt intent exactly if no active one exists |
| `ChatFirstAnswers.FetchHandsOutOrParks` | backend/database/chat_first_intents.py:709-765 | Handed out on the first nineteen fetches and parked on the twentieth, under the right reason |
| `ChatFirstAnswers.FetchReconciles` | backend/database/chat_first_intents.py:718-738 | An intent whose chat row was found is delivered and charged instead |
| `ChatFirstAnswers.RejectionsCountAndPark` | backend/database/chat_first_intents.py:1012-1059 | Only the two permanent codes count, and the third report parks the intent under its code |
| `ChatFirstAnswers.DeferralsParkAfterSevenDays` | backend/database/chat_first_intents.py:1082-1117 | Deferral is clocked from the first one and parks the intent seven days later |
| `ChatFirstAnswers.ReceiptDelivers` | backend/database/chat_first_intents.py:1141-1183 | A receipt delivers a deliverable intent and charges an agent turn once |
| `ChatFirstAnswers.DeliveredAnswersItsReceipt` | backend/database/chat_first_intents.py:1150-1155 | A delivered intent confirms its own receipt, or any after reconciliation, and refuses another |
| `ChatFirstAnswers.ReceiptForDeadLetterInPlace` | backend/database/chat_first_intents.py:1156-1181 | A transient dead letter left in place is delivered by its receipt once |
| `ChatFirstAnswers.RequeuedExactlyWhen` | backend/database/chat_first_delivery_attempts.py:155-168 | A dead letter is requeued exactly if transient, never requeued, and parked at least six hours ago |
| `ChatFirstAnswers.RequeuedRowIsFresh` | backend/database/chat_first_delivery_attempts.py:169-208 | The requeued intent has its content, a fresh budget and its one requeue on record |
| `ChatFirstAnswers.DeferralIsRecordedOnce` | backend/database/chat_first_intents.py:1186-1237 | A question is deferred once, due a day later |
| `ChatFirstAnswers.ReleaseRaisesTheQuestion` | backend/database/chat_first_intents.py:1366-1411 | A pending deferral becomes a ready intent that asks its question, once |
| `ChatFirstAnswers.ReleaseFindsTheQuestionRaised` | backend/database/chat_first_intents.py:1399-1405 | An already active question only closes the deferral |
| `ChatFirstAnswers.StaleAccountWritesNothing` | backend/database/chat_first_intents.py:180-190 | A transaction for another account generation writes nothing |
| `ChatFirstStore.Store.AccountMaterialization` | backend/database/chat_first_intents.py:733-741 | One charge for this intent and no other |
| `ChatFirstStore.Store.MoveToDeadLetters` | backend/database/chat_first_delivery_attempts.py:109-132 | Dead letter written and active row removed together |
| `ChatFirstStore.Store.CreateIntent` | backend/database/chat_first_intents.py:384-465 | Creation consulting both collections; other intents untouched |
| `ChatFirstStore.Store.GetOrCreateColdStartIntent` | backend/database/chat_first_intents.py:468-526 | Cold start consulting the active collection only |
| `ChatFirstStore.Store.AdvanceFetchedIntent` | backend/database/chat_first_intents.py:675-767 | Hand-out, reconciliation or dead-lettering of a fetched intent |
| `ChatFirstStore.Store.RecordMaterializationRejection` | backend/database/chat_first_intents.py:992-1059 | Only permanent codes count; the third parks the intent |
| `ChatFirstStore.Store.RecordMaterializationDeferral` | backend/database/chat_first_intents.py:1062-1117 | Deferral clock from the first deferral; parked after seven days |
| `ChatFirstStore.Store.AcknowledgeMaterialization` | backend/database/chat_first_intents.py:1120-1183 | Delivery by receipt, idempotent, with its charge |
| `ChatFirstStore.Store.RequeueTransientDeadLetter` | backend/database/chat_first_delivery_attempts.py:135-210 | Requeue of an aged transient dead letter, once |
| `ChatFirstStore.Store.RecordDeferral` | backend/database/chat_first_intents.py:1186-1237 | A deferral is recorded once, due after a day; repeats return it, other content is refused |
| `ChatFirstStore.Store.ReleaseDeferral` | backend/database/chat_first_intents.py:1358-1411 | Release of a pending deferral into its intent |
| `DesktopChannelSafety.GenerationCountsControlChanges` | backend/database/desktop_update_channels.py:93-177 | control_generation counts the effective changes of the control document, over any run |
| `DesktopChannelSafety.CommitMeansNothingHappened` | backend/database/desktop_update_channels.py:395-445 | If a captured admission commits, no step in between changed the control document and it is the captured candidate |
| `DesktopChannelSafety.AnyChangeVoidsTheCapture` | backend/database/desktop_update_channels.py:180-193 | One effective reservation, pause, resume or break-glass in between makes the commit fail and write nothing |
| `DesktopChannelSafety.ReservationsRollForward` | backend/database/desktop_update_channels.py:94-128 | Over any run reserved builds strictly increase, versions never decrease, and a reservation is never withdrawn |
| `DesktopChannelSafety.BreakGlassPauses` | backend/database/desktop_beta_breakglass.py:77-158 | A committed break-glass pauses admission, bumps the control generation and adds its audit record; Stable is untouched |
| `DesktopChannelSafety.NoAdmissionUntilResume` | backend/database/desktop_beta_breakglass.py:77-158 | After a break-glass, in any run without an explicit resume, no admission commits and only another break-glass moves Beta |
| `DesktopChannelSafety.RunRetains` | backend/database/desktop_update_channels.py:204-221 | No run removes or rewrites a manifest or an audit record |
| `DesktopChannelSafety.PointersResolve` | backend/database/desktop_update_channels.py:231-348 | In every reachable state both pointers repeat version and build of a retained manifest; Stable never an emergency, Beta only by audited rollout |
| `DesktopChannelSafety.GenerationsCountMoves` | backend/database/desktop_update_channels.py:249-310 | The generation of each pointer counts its effective moves |
| `DesktopChannelSafety.SecondRacingMoveHasNoEffect` | backend/database/desktop_update_channels.py:289-294 | Of two Stable moves expecting the same generation at most one takes effect |
| `DesktopChannelSafety.SecondBreakGlassIsRefused` | backend/database/desktop_beta_breakglass.py:99-105 | Of two break-glass requests expecting the same generation, the second is refused whole |
| `DesktopChannelSafety.AuditsCountBreakGlass` | backend/database/desktop_beta_breakglass.py:93-96 | Exactly one audit record per committed break-glass |
| `DesktopChannelSafety.StableRollsForward` | backend/database/desktop_update_channels.py:296-303 | Without a repoint every Stable move of a run raises the build |
| `DesktopChannelSafety.BetaRollsForward` | backend/database/desktop_update_channels.py:296-303 | Without a rollback every Beta move of a run, by admission or emergency rollout, raises the build |
| `DesktopChannelSafety.RepointMatchedBoth` | backend/database/desktop_update_channels.py:283-294 | An effective repoint matched the current release and the generation |
| `DesktopChannelSafety.NeverEnabledWithoutReservation` | backend/database/desktop_update_channels.py:139-169 | Admission is never enabled without a reserved candidate |
| `DesktopChannelAnswers.VersionsCompareByFirstDifference` | backend/database/desktop_update_channels.py:37-46 | Versions compare by the first part in which they differ |
| `DesktopChannelAnswers.ReservationTakesEffect` | backend/database/desktop_update_channels.py:94-128 | A reservation succeeds exactly for a canonical tag that is first, repeated, or follows; what it records |
| `DesktopChannelAnswers.PauseAndResumeTakeEffect` | backend/database/desktop_update_channels.py:139-169 | A pause always succeeds; a resume needs a reservation |
| `DesktopChannelAnswers.CaptureSucceedsExactlyWhen` | backend/database/desktop_update_channels.py:180-193 | A capture succeeds exactly for the reserved tag while admission is enabled |
| `DesktopChannelAnswers.PromotionMovesExactlyForward` | backend/database/desktop_update_channels.py:249-310 | A qualified release that is not current moves Stable if and only if its expectations hold and it raises the build |
| `DesktopChannelAnswers.RepointMovesExactlyWhenMatched` | backend/database/desktop_update_channels.py:249-310 | A repoint moves Stable either way, exactly from the release and generation it names |
| `DesktopChannelAnswers.CurrentReleaseIsAcknowledged` | backend/database/desktop_update_channels.py:275-280 | Moving to the current release is an acknowledged retry |
| `DesktopChannelAnswers.UnqualifiedIsRefused` | backend/database/desktop_update_channels.py:267-272 | A release not retained or not qualified is refused |
| `DesktopChannelAnswers.AdmissionCommitsExactlyWhen` | backend/database/desktop_update_channels.py:396-445 | An admission commits exactly for the reserved candidate at the captured generation, qualified, not colliding, and forward or current; what it writes |
| `DesktopChannelAnswers.UndisturbedCaptureCommits` | backend/database/desktop_update_channels.py:180-445 | A capture followed by any run without a control change commits exactly if qualified, not colliding, and forward or current |
| `DesktopChannelAnswers.RollbackCommitsExactlyWhen` | backend/database/desktop_beta_breakglass.py:77-158 | A rollback commits exactly for an unused request that names the pointer as it stands and a retained non-emergency release; what it writes |
| `DesktopChannelAnswers.RolloutCommitsExactlyWhen` | backend/database/desktop_beta_breakglass.py:77-158 | An emergency rollout commits exactly for such a request and a fitting emergency manifest of a higher build; what it writes |
| `DesktopChannelAnswers.RegistrationTakesEffect` | backend/database/desktop_update_channels.py:204-221 | A manifest is retained exactly if its id is new or it is the one already there |
| `DesktopChannelStore.Store.ReserveBetaCandidate` | backend/database/desktop_update_channels.py:94-135 | Reservation |
| `DesktopChannelStore.Store.SetBetaAdmissionEnabled` | backend/database/desktop_update_channels.py:139-177 | Pause and resume |
| `DesktopChannelStore.Store.RegisterReleaseManifest` | backend/database/desktop_update_channels.py:204-221 | Create-if-absent with exact idempotent repeats |
| `DesktopChannelStore.Store.PromoteChannel` | backend/database/desktop_update_channels.py:314-392 | Promotion and repointing of Stable |
| `DesktopChannelStore.Store.AdmitQualifiedBeta` | backend/database/desktop_update_channels.py:396-445 | Beta admission: all checks before the first write |
| `DesktopChannelStore.Store.CommitBreakGlass` | backend/database/desktop_beta_breakglass.py:77-158 | Rollback and emergency rollout: all or nothing |
| `ChatPaging.GetMessagesReconcilePage` | backend/database/chat.py:355-439 | The batched loop returns exactly the page of the row-at-a-time reference, or the cursor or limit error |
| `ChatPaging.WalkBatch` | backend/database/chat.py:409-421 | One batch: stops at the row that fills the page |
| `ChatPaging.PageIsBoundedAndAdvances` | backend/database/chat.py:397-439 | A page scans at most its budget; has_more means the cursor advanced, and its absence that the tail was examined |
| `ChatPaging.MoreMeansFullOrSpent` | backend/database/chat.py:397-437 | has_more exactly if the page is full or min(1000, max(100, 4 * limit)) rows were examined |
| `ChatPaging.InsertionAheadKeepsPastCursor` | backend/database/chat.py:366-371 | Rows inserted ahead of the cursor leave everything past it in place |
| `ChatPaging.ReplayLosesAndRepeatsNothing` | backend/database/chat.py:397-439 | At every point of a replay, rows returned plus visible rows past the cursor are all visible rows in order |
| `ChatPaging.ReplayReturnsEveryVisibleRowOnce` | backend/database/chat.py:397-439 | Replaying until there is no more ends and returns every visible row exactly once, in order |
| `MessageRevisions.HighestRevisionWins` | backend/database/chat.py:1112-1187 | In any arrival order with repeats, text, metadata, fingerprint and revision end as those of the highest revision; one creation, no conflict |
| `MessageRevisions.BlocksConvergeExactlyWhenSettled` | backend/database/chat.py:1180-1181 | content_blocks is independent of the arrival order if and only if the highest revision brought blocks or no write did |
| `MessageRevisions.UnsettledBlocksDependOnOrder` | backend/database/chat.py:1180-1181 | Otherwise two arrival orders that end with different blocks |
| `MessageRevisions.UpdatesExactlyWhenNewer` | backend/database/chat.py:1143-1186 | A write updates an existing row exactly if it is of the same identity and carries a greater revision; what it writes |
| `MessageRevisions.ConflictsExactlyWhen` | backend/database/chat.py:1143-1172 | It conflicts exactly on another identity, or on other content under an equal revision or none |
| `MessageRevisions.FirstWriteCreates` | backend/database/chat.py:1046-1081 | The first write creates the row as sent |
| `MessageRevisions.MessageStore.SaveMessage` | backend/database/chat.py:989-1109 | Create-if-absent or arbitration; only a creation bumps the session counter |
| `MessageRevisions.MessageStore.ApplyExistingRevision` | backend/database/chat.py:1112-1187 | Arbitration of a retry or a revision against the stored row |
| `LruCache.EvictDropsShortestPrefix` | backend/database/cache_manager.py:198-209 | Eviction drops exactly the shortest least-recently-used prefix that makes room |
| `LruCache.RunIsBounded` | backend/database/cache_manager.py:143-209 | After any operations: distinct keys, and within the limit unless a single entry remains |
| `LruCache.KeysInLastUseOrder` | backend/database/cache_manager.py:68-94 | The dictionary order is the order of last use |
| `LruCache.HeldEntriesAreLatest` | backend/database/cache_manager.py:143-166 | Whatever is held under a key is the latest value stored under it in an unbounded plain map |
| `LruCache.HitsAgreeWithPlainMap` | backend/database/cache_manager.py:68-94 | After any history a read hits exactly when the key is held and its latest set in the plain map is not past its time to live |
| `LruCache.StoredValueIsReturned` | backend/database/cache_manager.py:68-166 | A value just stored is returned until its time to live is over, and not after |
| `LruCache.ReadsDropOnlyTheExpired` | backend/database/cache_manager.py:79-94 | A read past the time to live drops that entry and no other |
| `LruCache.HeldUntil` | backend/database/cache_manager.py:68-209 | An entry stays held until it is deleted, cleared, read past its time to live, replaced, or evicted |
| `LruCache.InMemoryCacheManager.Get` | backend/database/cache_manager.py:68-94 | Read with expiry, move to the end, hit and miss counts |
| `LruCache.InMemoryCacheManager.Set` | backend/database/cache_manager.py:143-166 | Store after eviction; the eviction counter counts what was dropped |
| `LruCache.InMemoryCacheManager.Delete` | backend/database/cache_manager.py:168-176 | Removal of one key |
| `LruCache.InMemoryCacheManager.DeleteLocked` | backend/database/cache_manager.py:187-196 | Removal with its byte accounting |
| `LruCache.InMemoryCacheManager.EvictIfNeeded` | backend/database/cache_manager.py:198-209 | The eviction loop, with current_size the sum of the stored sizes |
| `LruCache.InMemoryCacheManager.Reset` | backend/database/cache_manager.py:178-185 | Empty cache and zero statistics |
| `SingleFlight.EveryInterleavingKeepsInv` | backend/database/cache_manager.py:111-141 | A key's refcount is the number of threads between registration and cleanup, and its lock entry exists exactly while that is positive |
| `SingleFlight.AtMostOneFetchPerKey` | backend/database/cache_manager.py:111-141 | At no point of any interleaving are two threads inside fetch_fn for one key |
| `SingleFlight.LockStableWhileRegistered` | backend/database/cache_manager.py:111-141 | While a thread is registered its lock entry is never dropped or replaced |
| `SingleFlight.QuiescenceLeavesNothing` | backend/database/cache_manager.py:130-141 | When all calls are over, no lock and no count is left |
| `SingleFlight.NewcomersAreAdmitted` | backend/database/cache_manager.py:111-119 | Any thread may register, and shares the lock of a key in use |
| `SingleFlight.KeysOwnTheirLocks` | backend/database/cache_manager.py:111-119 | Different keys never share a lock object |
| `SingleFlight.NobodyWaitsInVain` | backend/database/cache_manager.py:111-141 | At every point of every interleaving a registered thread can go on, or waits for a thread of its key inside the lock that can |
| `SingleFlight.OnwardMovesOn` | backend/database/cache_manager.py:111-141 | Each step a thread is offered takes it one phase further, to the end of the call |
| `SingleFlight.HitSkipsTheFetch` | backend/database/cache_manager.py:122-126 | A value found by the second look is returned without a fetch |
| `SingleFlight.FetchRegistry.Enter` | backend/database/cache_manager.py:111-119 | Registration: lock created if absent, count raised |
| `SingleFlight.FetchRegistry.Leave` | backend/database/cache_manager.py:130-141 | Cleanup: count lowered, both entries dropped by the last caller |

## Left out

- Firestore, Redis, HTTP and credential clients, encryption and JSON encoding: foreign calls; a transaction is one atomic step.
- CandidateTasks.PendingCandidateHasNoTask: assumes that other writers neither mint this candidate's derived task id nor rebind its task, since those writers are not part of this model.
- FinalizationLeases.EveryJobStaysInItsLane: assumes that replays are aimed at rows the replay query returned; LanesHoldExactlyWhen covers every run.
- FinalizationProjection.GetSummary: does not model the filter for shard documents of another generation, which no transaction here writes.
- FinalizationStore.Store.CreateOrGetIntent: the client platform of the job and extra conversation fields of the caller are not modelled, because no transition reads them.
- FinalizationStore.Store.ClaimFinalizationJob: the refusal of an unknown status is not modelled, because the statuses are a closed type.
- FinalizationStore.Store.RecordMeetingReceipt: the later marks of a receipt (intent persisted, materialized) are written by other functions and not modelled.
- ChatPaging.ReplayReturnsEveryVisibleRowOnce: assumes that rows past the cursor are not deleted, reported or reordered between calls.
- RecoverySweep.AdvancesTileTheRows: the ordered collection is fixed while the pods sweep it.
- The integration outbox after acceptance (dispatch claim, completion, suppression on a generation change): rows are modelled as written.
- Candidate results for workstreams, compatibility scores, listing and paging of candidates: no state of the protocol depends on them.
- Arithmetic of the proactive turn budget (daily and rolling limits, reservations): its verdict is a parameter of creation, its charges are counted per intent.
- Repair of malformed documents, and legacy rows without aliases, fingerprints or sibling attempt documents: they only add easy members.
- The terminal receipt of the sparse cold-start sequence, and the priority order of a fetched batch: separate small projections.
- Deferred processing, unstampable orphans and conversation deletion in the finalization file: small paths that reopen conversation status.
- Parsing of canonical release tags and validation of manifest fields: tags are taken parsed and manifests validated.
- Timestamps of control, pointer and audit documents: no transition reads them.
- Chat messages without a client message id, and message deletion between a failed create and its arbitration: no arbitration takes place.
- Size estimation of cached objects: the size of a stored value is a parameter.
- Metrics, logging and telemetry: no functional property.
