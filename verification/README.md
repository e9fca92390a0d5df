# Verification of the document-verification workflow

A Dafny model of the parts of the system where a mistake would be hard to see: the protocol by which workers,
reviewers, uploaders and sweepers share the session and job tables; the fallback over verifier providers and the
two roll-ups that decide GREEN, AMBER or RED; the graph, sequence and geometry algorithms of extraction; and the
transformers that decide what may be written to the audit log, sent to a provider or shown in the workspace.

How the files fit together:

| files | what they model |
|---|---|
| `StateMachine` | the table of allowed session transitions, and what any path through it looks like |
| `SessionTable`, `JobTable` | each SQL statement, as a function on the table and as a method of a class that performs it |
| `SessionProtocol`, `JobProtocol` | all callers' statements interleaved one at a time, with stale reads, in runs of any length |
| `WorkerProtocol` | workers that hold jobs of the one protocol and verify sessions in the other, in any interleaving of both |
| `SessionSafety`, `SessionHolding`, `SessionReview`, `SessionStranding`, `JobSafety`, `WorkerSafety` | what holds in every reachable state and over whole runs |
| `SessionWitnesses` | concrete runs that show where a stronger claim would be false |
| `SessionRoutes`, `Worker` | the routes and the worker loop as programs over the tables; undisturbed, the routes are runs of the protocol |
| `EngineCache` | the double-checked engine cache under concurrent callers |
| `Executor`, `Bundles` | the provider fallback loop and the bundling of results by credential |
| `TrustFindings`, `TrustEngine` | findings, document outcome, confidence fusion, and the second document verdict |
| `SecurityGate`, `Deduplication`, `LayoutAnalyzer`, `TableExtraction`, `Grounder`, `PieceMatcher` | the extraction algorithms |
| `Json`, `AuditPayload`, `OutboundPayload`, `WorkspaceBoxes` | the payload transformers |
| `Prelude`, `Ordering` | counting, deduplication, stable sorting |

Properties that the code does not have are stated with the exact condition under which they hold, and with a
case in which they fail:

- An explicit mismatch can never be outvoted, but a mismatch given only in `status` can be
  (`TrustFindings.MismatchDominatesIff`), and the graph gives it only there: a field is red exactly if the first of
  its most confident verifiers contradicts it (`TrustEngine.GraphFieldIsRedIff`).
- The two document roll-ups agree unless every finding is green and none is required
  (`TrustEngine.RollUpsAgreeIff`). A safe document without any field is GREEN without evidence unless schema
  inference warned (`TrustEngine.GraphGreenIff`), which README.md:109 of the repository rules out.
- An unsafe document without any field is amber, not red, when schema inference warned
  (`TrustEngine.UnsafeIsRedIff`).
- What a claim is judged by concerns the claim exactly if some result does (`TrustFindings.ChosenConcernsIff`);
  otherwise it borrows another claim's result and can be green on it (`TrustEngine.BorrowedEvidenceIsGreen`). In a
  green document every field rests on evidence about itself exactly if every field has a result that concerns it
  (`TrustEngine.GraphGreenIff`, `TrustEngine.JudgeSafeDocument`).
- Payload minimisation is idempotent exactly when a text may be as long as the 16-character marker for bytes
  (`OutboundPayload.IdempotentIff`); box canonicalisation exactly when no box was kept on page 0
  (`WorkspaceBoxes.IdempotentIff`).
- A cached engine is rebound exactly when its class has changed (`EngineCache.RebindsIffDisplaced`).
- A session holds a lease exactly if its last entry into VERIFYING was an acquisition, and not the /run route
  (`SessionHolding.LeasedIffAcquired`).
- When every verification starts with a committed entry into VERIFYING, a lease is ended only by its holder or the
  sweep (`SessionHolding.HolderOrSweepEndsLease`), and the latest receipt of a decided session always names the
  decision (`SessionReview.NamedWithoutInjectedCalls`). The one caller that starts without is `start_verification`
  with injected stages, a path kept for internal callers (backend/app/workflow/service.py:96-118). Someone else can
  first end a lease exactly while such a call, having read VERIFYING, is in flight
  (`SessionHolding.OnlyInjectedCallsEndALease`). The decision stays on the latest receipt exactly if no worker that
  can still store its bundle is inside the verification (`SessionReview.StaysNamedIff`), and a worker can be inside
  a decided session only if such a call ended the verification under it (`SessionReview.LateWorkerMeansIntrusion`,
  `SessionWitnesses.LateBundleHidesDecision`).
- An abandoned session gets away from ABANDONED_VERIFYING exactly while a caller that verifies it can still fail it
  (`SessionStranding.AbandonedGetsAwayIff`): nothing but a further call with injected stages takes it up again.
- At most one job of a session is active exactly when no insert acts on an outdated check
  (`JobSafety.OneActiveIffChecksFresh`).
- A finished job's status changes exactly when the worker that still holds it marks it otherwise
  (`JobSafety.FinishedStatusChangesIff`); only a job swept to FAILED is ever held then
  (`JobSafety.DoneAndSkippedAreFinal`, `JobSafety.SweptJobCanBecomeDone`).
- The overlap stage of value matching finds shared text exactly when the token found is not blank after
  normalisation (`PieceMatcher.OverlapSharesTextUnlessBlank`).
- An amber finding escapes manual review under one exact condition (`TrustFindings.AmberEscapesReviewIff`), which
  some results meet (`TrustFindings.UnflaggedAmberExists`).

`dafny verify dfyconfig.toml` checks everything.

## Model

| member | source | states |
|---|---|---|
| StateMachine.RetriesBoundLength | backend/app/workflow/state_machine.py:6-39 | a history with k retries has made at most 3k + 8 transitions, although the graph is cyclic |
| StateMachine.RetryBoundIsTight | backend/app/workflow/state_machine.py:6-39 | for every k the bound is attained |
| StateMachine.DecisionsInHistory | backend/app/workflow/state_machine.py:6-39 | where a history ends fixes how often it passed review and how many human decisions it holds |
| StateMachine.PurgeNeedsOneDecision | backend/app/workflow/state_machine.py:6-39 | a purged session passed PENDING_HUMAN_REVIEW once and exactly one of the three decision states once |
| StateMachine.EntriesAndExits | backend/app/workflow/state_machine.py:6-39 | entries to VERIFYING equal exits, plus one exactly when the session is verifying now |
| StateMachine.RegionsAreClosed | backend/app/workflow/state_machine.py:6-39 | the regions after verification, after a decision and of closing are never left |
| StateMachine.SinksAreNotTheTerminalStates | backend/app/workflow/state_machine.py:6-39 | the sinks are PURGE_COMPLETE and FAILED_PURGED, not all of TERMINAL_STATES |
| SessionTable.StaleReadStillValid | backend/app/workflow/repository.py:55-98 | a write that matches a status observed in any earlier table takes an allowed step and touches one row |
| SessionTable.SweepLeavesNoStaleRow | backend/app/workflow/repository.py:149-169 | after a sweep no stale VERIFYING row is left, a second sweep does nothing, and other rows are untouched |
| SessionTable.Repository.GetSessionState | backend/app/workflow/repository.py:39-44 | the status of a session, or nothing |
| SessionTable.Repository.CompareAndSet | backend/app/workflow/repository.py:70-98 | the guarded UPDATE changes the one row whose status and lease match, and tells whether it did |
| SessionTable.Repository.TransitionState | backend/app/workflow/repository.py:46-98 | not found, invalid, conflict or moved; only the last changes the table |
| SessionTable.Repository.AcquireLease | backend/app/workflow/repository.py:101-121 | the lease is taken exactly for a leasable status and a null lease |
| SessionTable.Repository.UpdateWorkerPhase | backend/app/workflow/repository.py:124-133 | only the holder's phase is written |
| SessionTable.Repository.UpdateHeartbeat | backend/app/workflow/repository.py:136-146 | only the holder's heartbeat is written |
| SessionTable.Repository.MarkStaleSessions | backend/app/workflow/repository.py:149-169 | exactly the stale rows are abandoned and lose their lease, and are counted |
| SessionTable.Repository.CompleteProcessing | backend/app/workflow/repository.py:182-210 | completion without a lease check: outcome recorded, lease and heartbeat cleared |
| SessionTable.Repository.FailProcessing | backend/app/workflow/repository.py:213-239 | failure without a lease check: lease, heartbeat and outcome cleared |
| SessionSafety.StepFollowsTable | backend/app/workflow/repository.py:46-98 | every atomic step of any caller takes every session along the table |
| SessionSafety.StepKeepsInv | backend/app/workflow/repository.py:46-239 | every step of every caller keeps the invariant of rows, tokens and callers |
| SessionSafety.CommittedHistoryFollowsTable | backend/app/workflow/repository.py:46-98 | under any interleaving each session's committed history is a path from CREATED ending at its status |
| SessionSafety.SessionLifetime | backend/app/workflow/state_machine.py:6-54 | in every run: the retry bound, the single decision before a purge, and entries against exits of VERIFYING |
| SessionSafety.LeaseImpliesVerifying | backend/app/workflow/repository.py:101-239 | in every reachable state a set lease implies VERIFYING |
| SessionSafety.AcquisitionsAreSeparated | backend/app/workflow/repository.py:101-239 | between two acquisitions of a session's lease lies a completion, a failure or a sweep of it |
| SessionSafety.OnlyTheHolderWrites | backend/app/workflow/repository.py:124-146 | a heartbeat or phase write by anyone but the holder changes nothing |
| SessionReview.FirstDecisionWins | backend/app/api/routes.py:413-487 | once a decision is committed the session stays there or is closed, and no receipt ever names another |
| SessionHolding.LeasedIffAcquired | backend/app/workflow/repository.py:101-121 | in every run a session is leased exactly if it is VERIFYING and its last entry was an acquisition, by that worker; otherwise the entry was the /run route's |
| SessionHolding.OneCallerInside | backend/app/workflow/service.py:123-221 | unless an injected call intruded, at most one caller is inside a verification, only while the session is VERIFYING or abandoned, and a worker inside holds the lease until it is abandoned |
| SessionHolding.EndedByAnotherIff | backend/app/workflow/repository.py:182-239 | a lease can be ended by someone else exactly while an ending of another caller that read VERIFYING is in flight |
| SessionHolding.OnlyInjectedCallsEndALease | backend/app/workflow/service.py:96-118 | without earlier intrusions that caller is one with injected stages |
| SessionHolding.HolderOrSweepEndsLease | backend/app/workflow/repository.py:149-239 | in every run without injected calls a lease is ended only by its holder or the sweep |
| SessionReview.LatestReceiptNamesDecision | backend/app/audit/service.py:81-135 | in every run in which no injected call ended the verification under the caller inside, the latest receipt of a decided session names the decision and has only its timestamp |
| SessionReview.NamedWithoutInjectedCalls | backend/app/workflow/service.py:96-118 | in every run without injected calls the latest receipt of a decided session names the decision |
| SessionReview.LateWorkerMeansIntrusion | backend/app/worker/worker.py:102-134 | a worker still inside a session past its verification was overtaken by an injected call |
| SessionReview.StaysNamedIff | backend/app/worker/worker.py:113-134 | a named decision stays on the latest receipt in every continuation exactly if no worker is inside the session's verification that has a bundle in its transaction or can still store one |
| SessionReview.StoresLate | backend/app/workflow/service.py:192-221 | such a worker can commit its bundle after the decision, with no row changed: its completion and failure are refused, and its job is marked failed |
| SessionStranding.AbandonedGetsAwayIff | backend/app/workflow/state_machine.py:6-39 | in every run an abandoned session leaves that status in some continuation without further injected calls exactly if a caller that verifies it can still fail it |
| SessionStranding.InjectedCallRescues | backend/app/workflow/service.py:96-118 | a further call with injected stages can always make it FAILED_RETRIABLE |
| SessionReview.ReplayedDecisionIsTheFirst | backend/app/api/routes.py:421-446 | a replay can only repeat the decision that was committed |
| SessionReview.ReplayChangesNoState | backend/app/api/routes.py:421-446 | repeating a decision changes no row and restores it on the latest receipt |
| SessionReview.AtMostOneUpload | backend/app/sessions/routes.py:165-264 | however many tokens race, one upload commits at most, and exactly its token is spent |
| SessionWitnesses.VerifyingWithoutLease | backend/app/agent_orchestration/workspace.py:40-53 | a run in which a session is VERIFYING without a lease |
| SessionWitnesses.CompletedByAnother | backend/app/workflow/service.py:96-118 | a run in which a call with injected stages ends the lease of a worker at work |
| SessionWitnesses.LateBundleHidesDecision | backend/app/worker/worker.py:129-134 | a run in which a worker, overtaken by an injected call, commits its bundle with the failure of its job and leaves the latest receipt of an approved session without decision |
| SessionRoutes.ReadThenWrite | backend/app/workflow/repository.py:46-98 | an undisturbed read and write of a call changes exactly its row, its token and its receipt |
| SessionRoutes.ReviewRunIs | backend/app/api/routes.py:413-487 | what the protocol's steps of one review request amount to |
| SessionRoutes.AcceptedMeansDecided | backend/app/api/routes.py:413-487 | after an accepted request the session is decided, its latest receipt says so, and repeating it moves nothing |
| SessionRoutes.UploadRunIs | backend/app/sessions/routes.py:165-264 | what the protocol's steps of one upload amount to |
| SessionRoutes.TokenRunIs | backend/app/sessions/routes.py:127-155 | what the protocol's steps of one token request amount to |
| SessionRoutes.VerifyRunIs | backend/app/agent_orchestration/workspace.py:27-149 | undisturbed, the lease-free episode never ends in VERIFYING and leaves no lease |
| SessionRoutes.SessionService.UpsertFinalReviewReceipt | backend/app/audit/service.py:81-135 | the latest receipt is rewritten, or a first one added, with exactly the decision's timestamp |
| SessionRoutes.SessionService.Decide | backend/app/api/routes.py:457-478 | one or two transitions and the receipt |
| SessionRoutes.SessionService.ReviewDecision | backend/app/api/routes.py:413-487 | the route does exactly what the protocol's steps do, and succeeds exactly for reviewable or equally decided sessions |
| SessionRoutes.SessionService.GenerateUploadToken | backend/app/sessions/routes.py:127-155 | a token is issued exactly for a new session, as the protocol's steps do |
| SessionRoutes.SessionService.UploadFile | backend/app/sessions/routes.py:165-264 | the upload succeeds exactly with a usable token, a safe file and a waiting session; otherwise nothing changes |
| SessionRoutes.SessionService.SpendToken | backend/app/sessions/routes.py:216-264 | token and status change together or not at all |
| SessionRoutes.SessionService.RunVerification | backend/app/api/routes.py:371-410 | the route runs exactly for a startable session with a file, and then does what the protocol's steps do; it answers with the stored workspace exactly for verified, waiting and decided sessions and refuses all others |
| SessionRoutes.SessionService.RunGeneralizedVerification | backend/app/agent_orchestration/workspace.py:27-149 | the episode ends in PENDING_HUMAN_REVIEW or FAILED_RETRIABLE |
| JobTable.JobQueue.EnqueueJob | backend/app/workflow/job_queue.py:39-54 | with nothing in between, the oldest active job of the session is returned or one is inserted |
| JobTable.JobQueue.SelectOldestPending | backend/app/workflow/job_queue.py:57-66 | an oldest pending job, or none exactly if none is pending |
| JobTable.JobQueue.Claim | backend/app/workflow/job_queue.py:68-84 | the guarded UPDATE claims the job exactly if it is still pending |
| JobTable.JobQueue.DequeueJob | backend/app/workflow/job_queue.py:57-87 | with nothing in between, an oldest pending job is claimed if there is one |
| JobTable.JobQueue.UpdateJobHeartbeat | backend/app/workflow/job_queue.py:102-111 | accepted exactly for the job's worker while it is PROCESSING |
| JobTable.JobQueue.MarkStaleProcessingJobsFailed | backend/app/workflow/job_queue.py:114-129 | exactly the stale PROCESSING jobs fail, and are counted |
| JobTable.JobQueue.MarkTerminal | backend/app/workflow/job_queue.py:132-144 | the job is marked whatever its present status |
| JobProtocol.StepKeepsInv | backend/app/workflow/job_queue.py:39-144 | every atomic step of any worker, enqueuer or sweeper keeps the invariant |
| JobSafety.ClaimedJobIsOldest | backend/app/workflow/job_queue.py:57-87 | a job selected earlier and still pending is still the oldest when it is claimed |
| JobSafety.ClaimsInCreationOrder | backend/app/workflow/job_queue.py:57-87 | in every run concurrent workers claim jobs in global creation order |
| JobSafety.ClaimedAtMostOnce | backend/app/workflow/job_queue.py:57-87 | each job is claimed at most once, by the worker it names, and attempts never exceed 1 |
| JobSafety.JobsOnlyAdvance | backend/app/workflow/job_queue.py:57-144 | PENDING and PROCESSING are never re-entered and a finished job is never revived |
| JobSafety.SweepLeavesNoStaleJob | backend/app/workflow/job_queue.py:114-129 | after a sweep no PROCESSING job has an older heartbeat than the timeout allows |
| JobSafety.OneJobPerWorker | backend/app/worker/worker.py:83-137 | a worker that was not lost processes at most one job |
| JobSafety.OneActiveIffChecksFresh | backend/app/workflow/job_queue.py:39-54 | one active job per session holds exactly if no insert acts on an outdated check |
| JobSafety.RacingEnqueuesDuplicate | backend/app/workflow/job_queue.py:39-54 | two racing enqueues leave two active jobs |
| JobSafety.FinishedStatusChangesIff | backend/app/workflow/job_queue.py:132-144 | in every run a finished job's status changes in a step exactly if the worker still holding it marks it with another one |
| JobSafety.DoneAndSkippedAreFinal | backend/app/workflow/job_queue.py:132-144 | in every run DONE and SKIPPED are never rewritten |
| JobSafety.SweptJobCanBecomeDone | backend/app/workflow/job_queue.py:114-144 | a run from the empty tables in which a job swept to FAILED becomes DONE |
| WorkerProtocol.RunsOfBoth | backend/app/worker/worker.py:83-137 | a run of workers between the tables is a run of each protocol, so all that holds of those holds of it |
| WorkerSafety.DoneMeansCompleted | backend/app/worker/worker.py:102-128 | in every run a DONE job had its session completed, in an earlier commit, by the worker that held the job |
| WorkerSafety.CompletedIsNeverSkipped | backend/app/worker/worker.py:102-134 | a job whose worker completed the session is processing, done or failed, and the session waits for review or is beyond |
| WorkerSafety.OneCompletedJobPerSession | backend/app/workflow/service.py:250-270 | in every run workers complete a session for one of its jobs at most, duplicates and displaced workers included |
| WorkerSafety.OneDoneJobPerSession | backend/app/workflow/job_queue.py:90-91 | at most one job of each session is ever DONE |
| WorkerSafety.UndisturbedEntry | backend/app/worker/worker.py:102-112 | undisturbed, a worker with a job of a leasable session enters the session |
| WorkerSafety.UndisturbedCompletion | backend/app/worker/worker.py:113-128 | undisturbed, a worker inside completes the session and then marks its job DONE |
| Worker.ProgressAfterTurn | backend/app/worker/worker.py:83-137 | a turn takes the oldest pending job and finishes it, and only sweeps the others |
| Worker.WorkerProcess.RunPipeline | backend/app/worker/worker.py:113-119 | the session's row afterwards; an exception unless the session was completed |
| Worker.WorkerProcess.MarkStaleWork | backend/app/worker/worker.py:142-158 | both tables are swept |
| Worker.WorkerProcess.Process | backend/app/worker/worker.py:102-134 | the job ends skipped, done or failed, as lease and pipeline decide, and only its session changes |
| Worker.WorkerProcess.TakeJob | backend/app/worker/worker.py:83-96 | the sweep never takes a pending job away from the queue |
| Worker.WorkerProcess.Turn | backend/app/worker/worker.py:83-137 | one turn of the loop: oldest job claimed, finished with the status its session calls for |
| Worker.WorkerProcess.Run | backend/app/worker/worker.py:70-139 | alone, a worker takes the pending jobs oldest first, one a turn, and leaves each finished |
| EngineCache.EnginesAreConserved | extraction/ocr/pp_chatocr_v4.py:213-253 | engines created = cached + held + closed + displaced, and no cached engine is closed |
| EngineCache.LosersCloseOnce | extraction/ocr/pp_chatocr_v4.py:238-250 | an engine once closed is closed exactly once |
| EngineCache.LoserAdoptsWinner | extraction/ocr/pp_chatocr_v4.py:238-250 | the caller that loses the race closes its own engine and shares the cached one |
| EngineCache.RebindsIffDisplaced | extraction/ocr/pp_chatocr_v4.py:238-253 | a step changes a binding exactly when it installs over an engine of another class |
| EngineCache.OneClassAgrees | extraction/ocr/pp_chatocr_v4.py:213-253 | with one engine class every cached caller has the cached engine and none is displaced |
| EngineCache.BindingNeverChanges | extraction/ocr/pp_chatocr_v4.py:213-253 | with one engine class a key's binding never changes |
| EngineCache.TwoClassesRebind | extraction/ocr/pp_chatocr_v4.py:238-253 | with two classes an engine is dropped from the cache and never closed |
| EngineCache.SharedCache.Find | extraction/ocr/pp_chatocr_v4.py:221-226 | the cached engine of the right class, or nothing |
| EngineCache.SharedCache.InstallOrAdopt | extraction/ocr/pp_chatocr_v4.py:238-252 | the engine is installed, or closed and the cached one adopted |
| EngineCache.SharedCache.GetEngine | extraction/ocr/pp_chatocr_v4.py:213-253 | the engine returned, whether it is shared, and the cache afterwards |
| Executor.ExecuteWithCandidates | backend/app/verifier_execution/executor.py:183-278 | the loop returns the result of the first viable candidate in order, else manual review |
| Executor.AttemptsSplit | backend/app/verifier_execution/executor.py:193-240 | before the winner every attempt was skipped or raised, and left one code each |
| Executor.CodesFollowAttempts | backend/app/verifier_execution/executor.py:219-240 | the k-th code is the one of the k-th attempt and tells why it failed |
| Executor.FailuresAreReported | backend/app/verifier_execution/executor.py:204-208 | every failure code is among the final reasons, which hold no blanks and no repetitions |
| Executor.FallbackIsMarked | backend/app/verifier_execution/executor.py:242-246 | a provider's result carries PROVIDER_FALLBACK_USED exactly when another attempt came before or it came with that code |
| Executor.AnswersDoNotMatter | backend/app/verifier_execution/executor.py:234-262 | an unsuccessful answer never makes the loop go on: only failures decide who wins |
| Executor.EndingTellsWhy | backend/app/verifier_execution/executor.py:264-278 | ALL_PROVIDERS_FAILED is reported exactly when every attempt raised |
| Executor.DedupeCodes | backend/app/verifier_execution/executor.py:439-440 | the non-blank codes, once each |
| Bundles.Best | backend/app/verifier_execution/executor.py:300-307 | no result has a greater key than the one chosen |
| Bundles.BestIsFirst | backend/app/verifier_execution/executor.py:300-307 | among equals the first is chosen |
| Bundles.GroupResults | backend/app/verifier_execution/executor.py:287-289 | each credential id is mapped to its results in order |
| Bundles.GroupTasks | backend/app/verifier_execution/executor.py:291-293 | each credential id is mapped to its task ids in order |
| Bundles.BuildBundles | backend/app/verifier_execution/executor.py:280-351 | one bundle per credential, from its own tasks and results |
| Bundles.BundleTakesGravestStatus | backend/app/verifier_execution/executor.py:38-45 | the bundle's status is one of its results' and none outranks it |
| Bundles.MismatchDominates | backend/app/verifier_execution/executor.py:280-351 | a bundle is a mismatch exactly when one of its results is |
| Bundles.VerifiedUnlessMismatch | backend/app/verifier_execution/executor.py:280-351 | a bundle is verified exactly when some result is and none is a mismatch |
| Bundles.CountsAddUp | backend/app/verifier_execution/executor.py:331-345 | the counts sum to the results, each taken once per credential of its id |
| Bundles.CountsSumToResults | backend/app/verifier_execution/executor.py:331-345 | with unique ids the counts sum to all results exactly if every result's credential is known |
| TrustFindings.Top | backend/app/trust/findings.py:397-409 | no candidate has a higher priority than the one chosen |
| TrustFindings.IndexResults | backend/app/trust/findings.py:373-380 | each identifier is mapped to the results filed under it |
| TrustFindings.CollectOwn | backend/app/trust/findings.py:388-392 | the results of a claim's identifiers, in the order the set is visited |
| TrustFindings.BestResultForClaim | backend/app/trust/findings.py:383-397 | a top result of the claim's own, or of all results when it has none |
| TrustFindings.CandidatesAre | backend/app/trust/findings.py:383-397 | in any order the claim's own results are those sharing an identifier with it |
| TrustFindings.ChosenConcernsIff | backend/app/trust/findings.py:383-397 | the chosen result concerns the claim exactly if some result does; otherwise it is the strongest of all results |
| TrustFindings.BuildClaimFindings | backend/app/trust/findings.py:137-143 | one finding per claim, from its chosen result |
| TrustFindings.MissingRequiredFindings | backend/app/trust/findings.py:217-245 | one finding per required id that no finding bears, in sorted order |
| TrustFindings.SortedSet | backend/app/trust/findings.py:227 | the elements of a set in increasing order |
| TrustFindings.BuildTrustFindings | backend/app/trust/findings.py:120-146 | claims and missing ids together, with explanations, labels and boxes, and outcome, reasons, connectors and risk computed from them |
| TrustFindings.GreenRestsOnEvidence | backend/app/trust/findings.py:248-295 | a finding is green exactly for a confirming, uncontradicted result naming its task and a provider |
| TrustFindings.NoEvidenceMeansManualReview | backend/app/trust/findings.py:149-214 | without evidence a finding is amber, flagged for review and below the green confidence |
| TrustFindings.AiScoreDecidesNothing | backend/app/trust/findings.py:149-214 | the AI's score changes neither status, reasons, references nor review flag, and no final confidence that rests on evidence |
| TrustFindings.DefaultsNeedReview | backend/app/trust/findings.py:248-295 | every default reason for amber calls for review |
| TrustFindings.AmberEscapesReviewIff | backend/app/trust/findings.py:430-439 | the exact condition under which an amber finding is not flagged |
| TrustFindings.UnflaggedAmberExists | backend/app/trust/findings.py:430-439 | results that meet it: plain ones whose own reason code no rule knows |
| TrustFindings.FindingGivesReason | backend/app/trust/findings.py:149-214 | no finding is without a reason code |
| TrustFindings.VerdictGivesReason | backend/app/trust/findings.py:305-345 | no verdict is without a reason code |
| TrustFindings.MismatchDominatesIff | backend/app/trust/findings.py:400-409 | a contradicting result is never outvoted exactly when audit status or colour says so |
| TrustFindings.ExplicitMismatchIsRed | backend/app/trust/findings.py:383-409 | one explicit mismatch among a claim's results makes its finding red in any lookup order |
| TrustFindings.OutcomeMeans | backend/app/trust/findings.py:305-345 | red exactly if some finding is; green exactly if all are, one is required and one is backed |
| TrustFindings.GreenDocumentIff | backend/app/trust/findings.py:120-345 | green exactly when every claim rests on evidence, no required id is missing and one claim is required |
| TrustFindings.OwnEvidenceIff | backend/app/trust/findings.py:383-397 | a green claim rests on evidence about itself exactly if some result concerns it |
| TrustFindings.AllOwnEvidenceIff | backend/app/trust/findings.py:383-397 | with all claims green, each rests on evidence about itself exactly if each has a result that concerns it |
| TrustFindings.GreenMeansNoneMissing | backend/app/trust/findings.py:217-228 | no missing finding exactly if every required id is borne by a claim |
| TrustFindings.CountsCoverClaimsAndMissing | backend/app/trust/findings.py:310-314 | the counts sum to claims plus missing ids, the missing ones being amber |
| TrustFindings.WorseningNeverImproves | backend/app/trust/findings.py:305-345 | worsening any findings never improves the outcome |
| TrustEngine.GreenFieldNeedsVerifier | backend/app/trust/trust_engine.py:28-109 | a green field has a verifier of confidence 0.2 or more that did not contradict it or break down |
| TrustEngine.GreenIsReachableIff | backend/app/trust/trust_engine.py:77-101 | the bound of 0.2 is exact |
| TrustEngine.MoreConfidenceIsNoWorse | backend/app/trust/trust_engine.py:28-109 | raising scores or the verifier's confidence never worsens the decision |
| TrustEngine.BuildFinalVerdict | backend/app/trust/trust_engine.py:135-193 | one red makes red, else one amber amber; reasons of the non-green fields, once each |
| TrustEngine.UnsafeIsRedIff | backend/app/agent_orchestration/graph.py:610-640 | an unsafe document is never green, and red exactly unless it has no field and schema inference warned |
| TrustEngine.RollUpsAgreeIff | backend/app/trust/trust_engine.py:135-193 | the two roll-ups agree exactly if some finding is not green or one is required |
| TrustEngine.CopiedVerdict | backend/app/agent_orchestration/graph.py:687-719 | decisions copied from findings give red, or green, exactly as the findings' statuses do |
| TrustEngine.GraphGreenIff | backend/app/agent_orchestration/graph.py:610-640 | with a field the graph's green always rests on evidence, on evidence about the field itself exactly if each has some; without a field it needs only no schema warning |
| TrustEngine.FieldChoosesTop | backend/app/agent_orchestration/graph.py:662-684 | the graph judges a field that verifiers speak about by the top result of theirs |
| TrustEngine.GraphFieldIsRedIff | backend/app/agent_orchestration/graph.py:662-684 | a field is red exactly if the first of its most confident verifiers (of all verifiers if none speaks about it) contradicts it, and it is not a mandatory one without a value |
| TrustEngine.GraphMismatchIsOutvoted | backend/app/agent_orchestration/graph.py:662-684 | so every mismatch short of full confidence is outvoted by some confirmation of the same field |
| TrustEngine.BorrowedEvidenceIsGreen | backend/app/trust/findings.py:393-394 | a field that no result concerns is green on another field's evidence |
| TrustEngine.EvidenceVouches | backend/app/agent_orchestration/graph.py:662-684 | what a green field rests on is a verifier's confirmation naming its task and connector |
| TrustEngine.JudgeSafeDocument | backend/app/agent_orchestration/graph.py:565-640 | from fields and verifier results to the verdict: with a field, green needs a verifier that vouches, and one of the field's own exactly for the fields some verifier speaks about; without one, only the absence of a schema warning |
| SecurityGate.Walker.Walk | extraction/security_gate.py:127-158 | the walk ends on cyclic graphs and returns None only after exploring everything new |
| SecurityGate.Walker.WalkEntries | extraction/security_gate.py:136-152 | a dictionary's entries are checked and followed |
| SecurityGate.Walker.WalkItems | extraction/security_gate.py:153-157 | an array's items are followed |
| SecurityGate.ExploredCoversReachable | extraction/security_gate.py:127-158 | an explored visited set contains everything reachable, all of it clean |
| SecurityGate.FindBlockedPdfContent | extraction/security_gate.py:122-158 | None exactly when no reachable dictionary is blocked; a reason is justified by a reachable one |
| Deduplication.FindDuplicateIndex | extraction/deduplication.py:20-44 | the first kept candidate that is a duplicate |
| Deduplication.MergeCandidates | extraction/deduplication.py:47-63 | the winner's core, the boxes of both, the frequencies added |
| Deduplication.FuzzyDeduplicate | extraction/deduplication.py:9-17 | the candidates in order of confidence, each kept or merged into the first duplicate |
| Deduplication.KeepsOnePerGroup | extraction/deduplication.py:9-63 | each kept candidate is the earliest of its group in order of confidence |
| Deduplication.NoDuplicateIsKept | extraction/deduplication.py:9-44 | no later kept candidate is a duplicate of an earlier one |
| Deduplication.DeduplicationIsIdempotent | extraction/deduplication.py:9-63 | deduplicating twice changes nothing |
| Deduplication.BoxesAreKept | extraction/deduplication.py:47-63 | no bounding box is lost or invented |
| Deduplication.FrequenciesAddUp | extraction/deduplication.py:47-63 | frequencies of 1 sum to the number of inputs |
| LayoutAnalyzer.GroupByPage | extraction/layout_analyzer.py:10-12 | tokens by page, pages in order of first occurrence |
| LayoutAnalyzer.CutPage | extraction/layout_analyzer.py:16-31 | the inner loop computes the cut of a page into lines |
| LayoutAnalyzer.BuildEvidenceLines | extraction/layout_analyzer.py:8-32 | the lines of all pages, page after page |
| LayoutAnalyzer.CutKeepsItems | extraction/layout_analyzer.py:16-31 | cutting neither loses, repeats nor reorders tokens |
| LayoutAnalyzer.EachTokenInOneLine | extraction/layout_analyzer.py:8-32 | every token index is in exactly one line, once |
| LayoutAnalyzer.LineIsFlatOnOnePage | extraction/layout_analyzer.py:8-32 | a line's tokens share its page and their tops spread over at most 4.5 |
| LayoutAnalyzer.LineBoxIsTightHull | extraction/layout_analyzer.py:70-83 | each side of a line's box is reached by a token and passed by none |
| LayoutAnalyzer.NextLineStartsLower | extraction/layout_analyzer.py:16-29 | two lines of a page are cut only where the tops are more than 4.5 apart |
| TableExtraction.ExtractTables | extraction/layout_analyzer.py:39-67 | the tables of each page are its runs of neighbouring tabular lines, none empty |
| TableExtraction.RowsSurvive | extraction/layout_analyzer.py:39-67 | the tabular rows of each page survive in order, once each |
| Grounder.FindBestMatchOnPage | extraction/grounder.py:93-117 | the first best window of the page, an exact one as soon as it is met |
| Grounder.LookFrom | extraction/grounder.py:99-115 | the inner loop over the windows from one token |
| Grounder.AnswerMeans | extraction/grounder.py:93-117 | no window of the page is heavier than the answer |
| Grounder.BestPage | extraction/grounder.py:19-31 | no window of any page is heavier than the answer kept |
| Grounder.GroundValue | extraction/grounder.py:14-38 | exact exactly if some window of at most words + 5 tokens equals the target, fuzzy exactly if none does and one is close, with that window's box |
| PieceMatcher.FindPiece | extraction/ocr/pp_chatocr_v4.py:852-856 | the first later token equal to a piece |
| PieceMatcher.MatchPieces | extraction/ocr/pp_chatocr_v4.py:847-863 | the greedy search finds the leftmost increasing tokens equal to the pieces whenever any exist |
| PieceMatcher.CombinedIsHull | extraction/ocr/pp_chatocr_v4.py:884-899 | pieces have a common geometry unless none has a box or polygon; its box is the tight rounded hull of their outlines |
| PieceMatcher.OutlinesAre | extraction/ocr/pp_chatocr_v4.py:885-888 | the outlines are the corners of the polygons, and the boxes only if no token has a polygon |
| PieceMatcher.MatchGeometryForValue | extraction/ocr/pp_chatocr_v4.py:838-869 | whole token, else pieces, else first overlap, each stage only where the ones before find nothing; the geometry is that token's or the pieces' common one |
| PieceMatcher.MatchIsUnique | extraction/ocr/pp_chatocr_v4.py:838-869 | for each value and list of tokens one geometry at most meets that description |
| PieceMatcher.OverlapSharesTextUnlessBlank | extraction/ocr/pp_chatocr_v4.py:865-868 | an overlap is of shared text exactly if the token is not blank |
| AuditPayload.StripIsClean | backend/app/audit/service.py:205-231 | the stripper leaves nothing for the checker to find |
| AuditPayload.AssertionNeverRaises | backend/app/audit/service.py:166-171 | the assertion returns the stripped payload on every input |
| AuditPayload.CleanIffUnchanged | backend/app/audit/service.py:205-231 | the checker finds nothing exactly in payloads that stripping leaves alone |
| AuditPayload.StripIsIdempotent | backend/app/audit/service.py:205-214 | stripping twice changes nothing |
| AuditPayload.StripKeepsSafePaths | backend/app/audit/service.py:205-214 | a path of safe keys leads where it led before, any other leads nowhere |
| OutboundPayload.Minimizer.Walk | backend/app/verifier_providers/policies.py:166-196 | the recursive walk computes the minimised value and sets the flag exactly if it redacts |
| OutboundPayload.Minimizer.WalkEntries | backend/app/verifier_providers/policies.py:173-180 | the loop over a dictionary |
| OutboundPayload.Minimizer.WalkItems | backend/app/verifier_providers/policies.py:182-183 | the loop over the first ten items of a list |
| OutboundPayload.MinimizePayload | backend/app/verifier_providers/policies.py:158-199 | the minimised payload and the flag |
| OutboundPayload.StripIsTight | backend/app/verifier_providers/policies.py:190 | stripping removes outer white space and nothing else is left to strip |
| OutboundPayload.IdempotentIff | backend/app/verifier_providers/policies.py:158-199 | minimising is idempotent on all payloads exactly if there is room for the marker of bytes |
| OutboundPayload.MinimizedIsFit | backend/app/verifier_providers/policies.py:158-199 | nothing under a sensitive key, no bytes, no long list and no long text leaves |
| OutboundPayload.FlagIff | backend/app/verifier_providers/policies.py:164-196 | the flag is set exactly if a sensitive key, bytes or an overlong text was visited |
| WorkspaceBoxes.CanonicalWorkspaceBoxes | backend/app/agent_orchestration/sanitization.py:167-201 | the loop keeps the distinct readable boxes, each with the other entries of its first item, and returns the first two in order |
| WorkspaceBoxes.RestIsOfFirst | backend/app/agent_orchestration/sanitization.py:190-198 | the other entries sent with a box are those of the first item with that geometry |
| WorkspaceBoxes.OrderDoesNotMatter | backend/app/agent_orchestration/sanitization.py:167-201 | the geometry depends only on the set of boxes read, and the list besides only on the other entries of the first item of each kept box |
| WorkspaceBoxes.KeptAreTheSmallest | backend/app/agent_orchestration/sanitization.py:199-201 | a box is dropped only for two that are no larger |
| WorkspaceBoxes.IdempotentIff | backend/app/agent_orchestration/sanitization.py:167-201 | canonicalising twice changes nothing exactly if no box was kept on page 0 |
| WorkspaceBoxes.PageZeroArises | backend/app/agent_orchestration/sanitization.py:179 | a page given as "0" or as a fraction below 1 is read as page 0 |

## Left out

- Session status text is one of the 16 constants; the stripping of padded status texts is not modelled.
- The columns lease_holder_id, lease_acquired_at, version, updated_at and the payload columns, and extra_values that would overwrite the lease.
- Who owns a session, authentication, and the HTTP status codes of the routes beyond done, not found, refused and failed.
- The review and upload routes hold the row from their first write to their commit, so those statements are one atomic step of the protocol; everything before the first write interleaves freely.
- The failure states passed to fail_processing are those its callers pass. The outcome states of complete_processing are PENDING_HUMAN_REVIEW, which its callers pass today, and the VERIFIED_* states, which docs/shared_contracts_phase1.md:69 calls legacy; the workers of WorkerProtocol pass the first only.
- Row locks held by uncommitted heartbeat and phase writes delay other callers; the protocols allow the interleavings these locks would exclude.
- The receipt of a verification is created and committed in one step, so receipts are ordered by commit.
- Receipt hashes, note hashes, event rows and the receipt's descriptive columns are not modelled.
- Wall-clock time is a logical clock that never goes back; creation times of jobs increase in insert order.
- Floating point is real arithmetic; rounding is a function parameter with the laws each lemma names.
- Text normalisation, lower-casing, identifier and label cleaning, cell splitting and difflib's ratio are function parameters with the laws each lemma names.
- Python's recursion limit, and references that resolve to further references, in the walk of a PDF's objects.
- Resetting the engine cache between tests.
- Executor.ExecuteWithCandidates: the direct route for a task without candidates, a missing credential, time stamps and latency are not modelled; the manual verifier is taken to return.
- Keys of payload dictionaries are texts, so that str(key) makes no two of them equal.
- The summary counts of an execution, the parsing of trust input in evaluate_trust, and value masking, which is not idempotent.
- A result or evidence that is a dictionary without entries is not distinguished from an absent one in the trust findings.
- Gemini and LangGraph calls, OCR engines, PDF parsing, field detection rules and provider HTTP clients.
- The heartbeat threads of the worker appear as steps of the protocols, not in the worker's loop.
