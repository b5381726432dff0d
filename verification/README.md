# Verification of the knowledge-base assistant

A Dafny model of the parts of the repository whose correctness spans several functions or processes:

* **Versioned publication** (`DocumentRegistry`, `UploadJobs`, `Publication`, `PublicationInvariant`,
  `PublicationTheorems`, `PublicationRuns`, `PublicationNames`, `PublicationClaims`, `PublicationRaces`,
  `PublicationLifecycle`, `PublicationChecks`, `RegistryTransactions`): uploads of one filename race, every attempt may raise or crash
  between two store writes, jobs are replayed, and soft deletes, restores, purges and cleanups interleave with them.
  The registry and the queue are classes proved against functions on the tables; the protocol is a transition system
  whose actions are the commits of those operations and the writes to the parent and vector stores.
  `PublicationRuns` puts runs together step by step; `PublicationNames`, `PublicationClaims` and `PublicationRaces`
  say exactly where guarantees for readers, for the queue and for heads end; `PublicationLifecycle` carries whole
  deletes, restores and purges through, failing ones included; `PublicationChecks` says what the checks of an upload
  decide and what a failed attempt comes to.
* **Chat runs** (`ChatGraph`, `ChatRuns`, `ChatTransactions`, `ChatInvariant`, `ChatProtocol`, `ChatTheorems`,
  `ChatAnswers`, `ChatCancel`, `ChatExecutions`): reserve, resume, save, cancel and fail as transactions on one
  session, interleaved with executions, watchers, cancellers, disconnecting clients and the clarification graph.
* **Chunks and retrieval** (`ChunkTree`, `ChunkTreeTheorems`, `ChunkTexts`, `AutoMerge`, `AutoMergeTheorems`,
  `AutoMergePass`, `AutoMergeCounting`, `AutoMergeRanking`, `ChunkRetrieval`, `Synthesis`, `SynthesisOrder`,
  `RagGraph`, `RagDecisions`): the three-level splitter and the ingestor's validator, two-pass auto-merging, the
  fan-out over sub-questions and the retrieval graph. Splitters, models and the retriever are arbitrary functions.
  `ChunkRetrieval` shows that what the loader emits meets the premises of auto-merging.
* **Incremental forms** (`ThinkTags`, `EventStream`, `Sanitizer`, `SanitizerPasses`, `SanitizerForms`, `ParentStore`,
  `ParentStoreRows`, `ParentStoreTheorems`): the streaming think-tag scanner, the event-stream reader, the text
  sanitizer and the cached parent store, each against the simple form it should agree with.

The functions that specify the transactions and passes are themselves fixed by laws in elementary terms, on rows,
positions and texts: `RegistryTransactions`, `PublicationChecks`, `ChatTransactions`, `ChatExecutions`,
`AutoMergePass`, `ChunkTexts`, `SynthesisOrder`, `RagDecisions`, `SanitizerPasses` and `ParentStoreRows`.

`Text`, `Positions`, `Sets` and `Wrappers` hold string helpers of the host languages, lists read off at ascending
positions, set cardinalities and result types.
`dafny verify dfyconfig.toml` verifies everything.

## Where the code departs from its promises

* Heads hold the raw name of an upload, chunk rows its sanitized name. A name that sanitizing changes leaves the
  legacy chunks of its file visible beside the current version, and two names that are stored alike show two
  documents under one name (`PublicationNames.ChangedNameShowsLegacy`, `TwoNamesShowTwoDocuments`). Readers see one
  generation per stored name in every reachable state if and only if every name in use is stored unchanged
  (`PublicationNames.StoredNamesDecide`); `SanitizerForms.NameIsStoredUnchanged` says which names are.
* A restore that begins while the upload job may still run can leave a head on a staging document, because the row
  write before publication does not look at the status. `PublicationRaces.RestoreMustNotRace` is such a run from the
  empty state; heads keep their promise in all reachable states if and only if restores wait for the job to be
  terminal and idle (`PublicationRaces.RestoreGuardDecides`); whether a weaker guard would do is not decided here. The
  other theorems on publication are about the protocol in which they wait. A restore is also allowed while a purge has begun and crashed.
* The attempt limit does not bound the claims of an upload whose row counts as published: a cleanup that keeps failing
  is claimed without bound, also that of an upload that was superseded before it was ever active
  (`PublicationClaims.SupersededClaimsAreUnbounded`). `PublicationClaims.ClaimsFollowTheRow` states exactly when
  claims are bounded.
* A cancel that reaches the run row but not the execution leaves the run cancelling for good, and the session
  refuses new requests on every continuation (`ChatCancel.CancelMayNeverBeAcknowledged`). A cancelling run can still
  be acknowledged if and only if one of its executions is not over (`ChatCancel.CancelCanBeAcknowledged`).
* A resumed clarification asks the detector again; if it no longer wants an answer, the accepted answer does not
  enter the question (`ChatGraph.AnswerIsDropped` is a whole run). The recorded answers are the given ones if and
  only if the detector never changed its mind (`ChatGraph.AllAnswersAreRecorded`).
* The validator's acceptance of loaded documents rests on page numbers: two pages that yield chunks and carry the
  same number (or none) get the same chunk ids. `ChunkTreeTheorems.LoadedDocumentsAreValid` states exactly when a
  document is accepted.
* The parent store keeps chunks under trimmed ids, so namespaces that differ in leading white space only may
  collide there; `ChunkRetrieval.CorpusIsForest` states exactly which documents stay apart.
* The sanitizer is documented as idempotent (`backend/document/text_sanitizer.py:3` and `:9`). Characters are removed
  and folded after composition, so a second application may compose what the first brought together, and private-use
  removal follows whitespace folding, so one application may leave a double space or a triple line break.
  `SanitizerForms.StrippedIdempotence` and `KeepingIdempotence` state exactly when one application is enough, by the
  characters that are left before white space is folded; two are always enough.
* The cached parent store swallows cache failures. A lost write over a live entry, or a lost delete, keeps
  answering with the old row; `ParentStoreTheorems.StepCoherence` states exactly which failures are harmless.
* A streamed chunk that ends inside a tag is displayed before the tag is complete; `ThinkTags.SafeCuts` says after
  which texts a cut is harmless. `ThinkTags.StreamIsBatch`: the streamed text equals the batch deletion if and only
  if every opened block is closed.

## Model

| member | source | states |
|---|---|---|
| Registry.DocumentRegistry.LockHeadRow | backend/document/document_registry.py:115-139 | after the call the head row of the filename exists, unchanged if it was there, zeroed if not |
| Registry.DocumentRegistry.ReserveUpload | backend/document/document_registry.py:141-152 | the next version number and its staging row appear in one transaction; a known id changes nothing |
| Registry.DocumentRegistry.ChangeStatus | backend/document/document_registry.py:243-278 | the status changes, and any status but ACTIVE takes the head off the document; an unknown id is an error that changes nothing |
| Registry.DocumentRegistry.PublishDocument | backend/document/document_registry.py:176-204 | the four ways out of publish, each with the whole resulting tables |
| Registry.DocumentRegistry.UpsertDocument | backend/document/document_registry.py:70-99 | the row is overwritten whatever its status was, the version is kept; it keeps heads and active documents together if and only if the heads that point to the document are those the written status calls for |
| Registry.UpsertAgainstHeads | backend/document/document_registry.py:70-99 | the same for every content of the two tables |
| PublicationTheorems.ReachableCurrentIsActive | backend/document/document_registry.py:176-204 | in every reachable state the heads point exactly to the active documents of their names |
| PublicationTheorems.RowWriteIsSafe | backend/document/ingestion.py:142-150 | so the row write of an upload, wherever a reachable state lets it happen, finds a staging row without a head and keeps that |
| Registry.StagingWriteIsSafe | backend/document/document_registry.py:70-99 | a staging row may be written exactly while no head points to the document |
| RegistryTransactions.ReserveSpelledOut | backend/document/document_registry.py:141-152 | a reservation takes the next version number of its file and moves no head |
| RegistryTransactions.UpsertSpelledOut | backend/document/document_registry.py:70-99 | a row write keeps the version of a known document, gives a new one version zero and touches no other row |
| RegistryTransactions.SetStatusSpelledOut | backend/document/document_registry.py:243-278 | a status change takes the head off a document that is not active any more, and off no other |
| RegistryTransactions.PublishSpelledOut | backend/document/document_registry.py:184-204 | a shown document reports success without a change, one that is not staging is refused, one that is not newer retires unless forced, any other is shown and the one before it retires |
| RegistryTransactions.FilterSpelledOut | backend/document/document_registry.py:161-174 | readers are shown the chunks of documents under a head, and legacy chunks of names that were never published |
| UploadJobs.UploadJobManager.CreateJob | backend/jobs/persistent_upload_jobs.py:83-115 | document row and job row are created together or not at all |
| UploadJobs.UploadJobManager.Claim | backend/jobs/persistent_upload_jobs.py:231-240 | exactly pending and running jobs are claimed; a claim counts one attempt |
| UploadJobs.UploadJobManager.RetryJob | backend/jobs/persistent_upload_jobs.py:176-199 | job and document after a failure, by the attempts and the configured limit alone: an ordinary error fails a staging upload if and only if max(1, limit) attempts were made, and otherwise puts the job back to pending; a published one is put back whatever was tried |
| UploadJobs.RetryOutcome | backend/jobs/persistent_upload_jobs.py:183-199 | the same of the specification, for every status of the document and permanent errors too |
| PublicationTheorems.RetryDecides | backend/jobs/persistent_upload_jobs.py:183-199 | where the protocol gives a job back after an ordinary error, its document is staging or published: the first fails with its job exactly when the attempts are used up, the second never |
| PublicationTheorems.TerminalJobsAreFinal | backend/jobs/persistent_upload_jobs.py:153-199 | a completed or failed job keeps its status and its attempts on every continuation: nothing claims or retries it again |
| PublicationChecks.StatusDecides | backend/document/ingestion.py:97-102 | a document whose publication has committed goes to the cleanup, a staging one is built, any other fails for good |
| PublicationChecks.ManifestDecides | backend/document/ingestion.py:63-108 | a saved manifest wins over a parsed one, and the build goes on exactly with a validated manifest that has leaves |
| PublicationChecks.FaultIsSettled | backend/document/ingestion.py:158-160 | what a failed attempt comes to when it is left to itself: the job fails if the error is permanent or the attempts are used up, and nothing is published, else it is pending again; a staging document fails with its job; nothing else changes |
| PublicationInvariant.CountsDecide | backend/document/document_service.py:97-104 | since stored chunks are always within the manifest, the count checks of a restore establish equality of the chunk sets |
| PublicationInvariant.StepKeepsInv | backend/document/ingestion.py:91-160 | every step of every actor, failing and crashing ones included, keeps the protocol invariant |
| PublicationInvariant.RunKeepsInv | backend/document/ingestion.py:91-180 | so does every run |
| PublicationTheorems.HeadsAreComplete | backend/document/ingestion.py:133-151 | in every reachable state the document a head points to is active, its manifest has passed the validator and is not without leaves, and its live vector and parent chunks are exactly the manifest's leaves and parents |
| PublicationTheorems.ActiveIsCurrent | backend/document/document_registry.py:184-204 | a document is active if and only if the head of its file points to it |
| PublicationNames.GenerationsAreSingle | backend/document/document_registry.py:161-174 | in a reachable state the chunks admitted under one stored name are of one generation if and only if no two current files are stored alike and every stored name of one has published under that very name |
| PublicationNames.OneGenerationIsAdmitted | backend/document/document_registry.py:161-174 | when the names in use are stored unchanged, two admitted chunks of one name belong to one generation, the current version or the legacy rows |
| PublicationNames.StoredNamesDecide | backend/document/document_loader.py:178-180 | readers of all reachable states see one generation per stored name if and only if every name in use is stored unchanged |
| PublicationNames.ChangedNameShowsLegacy | backend/api/api.py:447-460 | a reachable state in which the current version and legacy chunks of one stored name are both admitted, for any upload name that sanitizing changes |
| PublicationNames.TwoNamesShowTwoDocuments | backend/api/api.py:447-460 | a reachable state in which chunks of two documents are admitted under one stored name, for any two names stored alike |
| PublicationTheorems.LegacyStaysHidden | backend/document/document_registry.py:161-174 | after any publication under a name, legacy chunks stored under that very name are never admitted again, on every run |
| PublicationTheorems.LegacyIsAdmittedUntilPublication | backend/document/document_registry.py:166-173 | legacy chunks stored under a name are admitted if and only if no head of that very name has ever published |
| PublicationTheorems.PublishedVersionIsMonotone | backend/document/document_registry.py:201-202 | on every run the published version never decreases and the log of published versions only grows |
| PublicationTheorems.VersionsIdentifyUploads | backend/document/document_registry.py:141-152 | versions are unique per filename, at least 1, and bounded with the published version by the counter |
| PublicationTheorems.StepMovesHead | backend/document/document_registry.py:184-204 | only publication moves a head, and an upload only to a version above the published one |
| PublicationTheorems.HeadVersionsIncrease | backend/document/document_registry.py:188-192 | without restores the versions a head takes are strictly increasing, also across deletions |
| PublicationTheorems.FreshRunVersionsIncrease | backend/document/document_registry.py:188-202 | the same from the empty state, for every run without a restore |
| PublicationTheorems.LateUploadRetires | backend/document/document_registry.py:188-204 | an upload becomes current if it is newer than the published version, and otherwise goes to retiring and leaves all heads alone |
| PublicationTheorems.ClaimsAreBounded | backend/jobs/persistent_upload_jobs.py:176-199 | until the upload leaves staging, a job is claimed at most max(1, UPLOAD_MAX_ATTEMPTS) times plus the crashes, the maximum written out |
| PublicationClaims.ClaimsFollowTheRow | backend/jobs/persistent_upload_jobs.py:176-199 | for every reachable state and whatever all actors do while the row keeps its status, the claims less the crashes are bounded if and only if the job is over or the row does not count as published |
| PublicationClaims.SettledClaimsAreUnbounded | backend/jobs/persistent_upload_jobs.py:184-186 | from a failing cleanup of a settled upload any number of further claims follows, without a crash |
| PublicationClaims.SupersededClaimsAreUnbounded | backend/jobs/persistent_upload_jobs.py:184-186 | for every bound a state reachable from the empty one in which an upload that was never active, superseded by a newer one, has been claimed more often without a crash |
| PublicationTheorems.ActiveJobIsNotFailed | backend/jobs/persistent_upload_jobs.py:183-186 | no retry bookkeeping marks the job of an active document failed |
| PublicationTheorems.FailedJobIsNotActive | backend/jobs/persistent_upload_jobs.py:183-186 | in no reachable state is there a failed job beside its active document, unless a restore made it active |
| PublicationTheorems.CompletedHasLeftStaging | backend/document/ingestion.py:151-157 | a completed job's document is not staging, unless a restore took it there |
| PublicationTheorems.ReplayNeverUnpublishes | backend/document/ingestion.py:97-100 | whatever runs after publication, no replay sends the document back to staging |
| PublicationRaces.RestoreMustNotRace | backend/document/document_service.py:91-112 | where a restore need not wait, a run from the empty state: a first attempt crashes after its counts, the restore republishes while the second stands before its row write, and the head is left on a staging document |
| PublicationRaces.RestoreGuardDecides | backend/document/ingestion.py:133-151 | every head of every reachable state points to an active, completely stored document if and only if restores wait until the upload job is over |
| PublicationChecks.OperationsBegin | backend/document/document_service.py:22-134 | exactly when a delete, a restore or a purge may start: the lock is free and the status is one it is meant for |
| PublicationLifecycle.DeletedHasNothingLive | backend/document/document_service.py:51-63 | whatever ran beside it, a soft delete commits only when no vector row and no parent row of the document is live and no head points to it |
| PublicationLifecycle.PurgedHasNothing | backend/document/document_service.py:134-141 | a purge commits only when neither store has a chunk of the document left |
| PublicationLifecycle.FailureIsPartial | backend/document/document_service.py:69-75 | an operation that raises leaves the parents and, but for the touched vector rows, the vectors as they were, and of the touched ones takes down, puts up or drops only what it is meant to |
| PublicationLifecycle.FailedOperationHides | backend/document/document_service.py:69-150 | in every reachable state the handler of a failed operation leaves a document without a head: retiring, failed or soft-deleted by the kind of the operation and the status it began with |
| PublicationLifecycle.FailedOperationCanBeRetried | backend/document/document_service.py:69-150 | and the operation may then be started again |
| PublicationLifecycle.DeleteThenRestore | backend/document/document_service.py:51-112 | from every reachable state a published document can be deleted softly and restored: registry and stores are then exactly what they were |
| PublicationLifecycle.DeleteThenPurge | backend/document/document_service.py:51-141 | deleting and purging takes the document off its head and out of both stores, and changes no other document |
| ChatGraph.StepKeepsGraph | backend/rag/chat_graph.py:217-256 | every node keeps the question equal to the composition of the original and the answers, keeps the round counts, and lowers the measure |
| ChatGraph.ComposeAlone | backend/rag/hitl_detect.py:59-64 | without answers the composed question is the original, or nothing if that is blank |
| ChatGraph.ComposeNext | backend/rag/hitl_detect.py:59-64 | a blank answer changes nothing; another one is put behind a line break, or stands alone if there is nothing before it |
| ChatGraph.QuestionIsItsLines | backend/rag/hitl_detect.py:59-64 | with no blank part the question is the original and the answers, one line after the other |
| ChatGraph.EveryChatRunIsBounded | backend/rag/chat_graph.py:445-468 | every walk ends within a fixed number of nodes, asks at most MAX_HITL_ROUNDS times and retrieves at most once more; with no blank text among them, its question is the first message and the recorded answers, line by line |
| ChatGraph.AllAnswersAreRecorded | backend/rag/chat_graph.py:227-246 | for every walk the recorded answers equal the supplied ones if and only if the detector still asked at every resumption |
| ChatGraph.AnswerIsDropped | backend/rag/chat_graph.py:227-234 | a whole run whose one supplied answer never enters the question |
| ChatRuns.SessionStore.FreeIndex | backend/agent/agent.py:160-167 | one above the largest message index, or zero |
| ChatRuns.SessionStore.AppendMessage | backend/agent/run_manager.py:96-109 | one message is added at the free index, nothing else changes |
| ChatRuns.SessionStore.Reserve | backend/agent/run_manager.py:117-166 | a known request returns its run or a conflict without a change; otherwise a new run and its message appear, unless a run is active |
| ChatRuns.SessionStore.ResumeRun | backend/agent/run_manager.py:169-218 | a repeated answer changes nothing; otherwise only a waiting run accepts one, with its message |
| ChatRuns.SessionStore.Cancel | backend/agent/run_manager.py:256-285 | a waiting run is cancelled, a running one becomes cancelling, a terminal one stays |
| ChatRuns.SessionStore.ChangeStatus | backend/agent/run_manager.py:289-319 | a guarded transition, refused without a change outside the allowed statuses |
| ChatRuns.SessionStore.AppendTurn | backend/agent/agent.py:160-221 | the messages of a turn get consecutive indices from the free one |
| ChatRuns.SessionStore.SaveTurn | backend/agent/agent.py:148-253 | messages and status are saved together, and only for a running run |
| ChatTransactions.RequestIdIsValid | backend/agent/run_manager.py:65-69 | a request id is taken without the white space around it and needs 1 to 128 characters |
| ChatTransactions.FreeIndexIsNext | backend/agent/agent.py:160-167 | the free index is above every index, by one only |
| ChatTransactions.KnownRequest | backend/agent/run_manager.py:126-134 | a request under a known id returns the run of that id, or a conflict if its payload is another one, and changes nothing |
| ChatTransactions.BusySession | backend/agent/run_manager.py:136-146 | a new request is refused while a run of the session is running, waiting or cancelling |
| ChatTransactions.NewRequest | backend/agent/run_manager.py:148-161 | otherwise a running run and its message appear, and nothing else changes |
| ChatTransactions.KnownAnswer | backend/agent/run_manager.py:193-203 | an answer under a known id returns its run, or a conflict if it is another text |
| ChatTransactions.NewAnswer | backend/agent/run_manager.py:191-215 | a new answer is accepted exactly by a waiting run, which goes on running, with the answer as its message |
| ChatTransactions.CancelSpelledOut | backend/agent/run_manager.py:256-285 | a cancel ends a waiting run, asks a running one to stop, and is lost on one that is over |
| ChatTransactions.MarksSpelledOut | backend/agent/run_manager.py:247-253 | mark_failed ends running and waiting runs, mark_cancelled cancelling ones, and neither any other |
| ChatTransactions.SaveSpelledOut | backend/agent/agent.py:148-253 | a save appends the turn with consecutive indices and gives the run its status, output and question, all or nothing, and only to a running run |
| ChatInvariant.ReserveKeepsSession | backend/agent/run_manager.py:117-166 | a reservation keeps indices, markers, message counts and the single active run |
| ChatInvariant.ResumeKeepsSession | backend/agent/run_manager.py:169-218 | so does an accepted answer |
| ChatInvariant.CancelKeepsSession | backend/agent/run_manager.py:256-285 | so does a cancel |
| ChatInvariant.MarksKeepSession | backend/agent/run_manager.py:247-253 | so do mark_failed and mark_cancelled |
| ChatInvariant.SaveKeepsSession | backend/agent/agent.py:148-253 | so does a turn with exactly one reply |
| ChatTheorems.StepKeepsInv | backend/agent/execution.py:141-183 | every step of users, workers, watchers and cancellers keeps rows, graphs and executions consistent |
| ChatTheorems.EverySessionIsConsistent | backend/agent/run_manager.py:96-159 | in every reachable state message indices are 0..n-1, at most one run is active, each run has 1 + accepted answers human messages and the replies its status says, and finished_at, hitl_json and error_code follow from the status |
| ChatTheorems.SettledRunsStay | backend/agent/run_manager.py:270-278 | on every run, terminal rows never change and after an accepted cancel nothing is written for the run |
| ChatTheorems.StoppedExecutionsEndTheirRun | backend/agent/execution.py:172-183 | if the finalizer saw stopped, the run is terminal when done is set |
| ChatExecutions.ExecutionMoves | backend/agent/execution.py:141-183 | one step of anyone, seen by one execution: work starts only unstopped, a worker is unwound only when stopped, and the flag is set by nothing else than a stop, a lost stream or a look at a cancelled row |
| ChatExecutions.NoExecutionIsBlocked | backend/agent/execution.py:141-183 | what an execution that is not over can always do, phase by phase, whatever the others do |
| ChatExecutions.EveryExecutionCanEnd | backend/agent/execution.py:141-183 | from every reachable state a run with an execution that is not over can still end |
| ChatExecutions.AnswerStep | backend/agent/agent.py:148-253 | a worker's answer goes in whole and becomes the output of the run while that is running, with at most a summary before it; otherwise no row changes |
| ChatTheorems.ResumesAreBounded | backend/rag/chat_graph.py:224-225 | no run accepts more than MAX_HITL_ROUNDS answers or retrieves more than once more |
| ChatTheorems.RepeatedRequestsChangeNothing | backend/agent/run_manager.py:126-134 | after anything that may happen in between, a repeated request returns its run and another payload under the id is refused |
| ChatTheorems.RepeatedAnswersChangeNothing | backend/agent/run_manager.py:193-203 | the same for an accepted answer |
| ChatAnswers.RunsWorkOnWhatWasSaid | backend/agent/run_manager.py:204-214 | in every reachable state the question of a run consists of what its user said, message by message as its lines and in order; at most the last accepted answer is missing |
| ChatCancel.StuckForGood | backend/agent/execution.py:156-183 | a cancelling run whose executions are all over stays cancelling on every continuation |
| ChatCancel.CancelCanBeAcknowledged | backend/api/api.py:251-258 | a cancelling run can still become cancelled if and only if one of its executions is not over, be it only the one whose producer never started |
| ChatCancel.CancelMayNeverBeAcknowledged | backend/agent/execution.py:156-179 | a reachable state in which a cancel has missed the execution: on every continuation the run is cancelling and every new request is refused |
| ChunkTreeTheorems.RenderInjective | backend/document/document_loader.py:43-45 | a chunk id determines namespace, page, level and index, whatever the namespace contains |
| ChunkTreeTheorems.RenderReads | backend/document/document_loader.py:43-45 | a chunk id is the namespace, then page, level and index behind their markers |
| ChunkTreeTheorems.DecimalReads | backend/document/document_loader.py:43-45 | numbers in ids are written in base ten, with a minus sign if negative and without leading zeros |
| ChunkTree.SplitPageToThreeLevels | backend/document/document_loader.py:56-134 | the counters make every id end in the rank of the chunk on its level, for any splitters |
| ChunkTree.LoadDocument | backend/document/document_loader.py:164-194 | the pages' chunks in order, numbered through the document |
| ChunkTreeTheorems.PageIsTree | backend/document/document_loader.py:75-132 | the chunks of a page are numbered, identified and placed under earlier parents one level up |
| ChunkTreeTheorems.DocumentIsTree | backend/document/document_loader.py:167-194 | chunk_idx is the position, every parent is earlier, one level up and under the same root, and roots are their own root |
| ChunkTexts.PageIsCut | backend/document/document_loader.py:75-132 | the texts of the roots of a page are the non-blank trimmed pieces of its text, in order; below every root stand those of the root's text, below every chunk of level two those of its own |
| ChunkTexts.DocumentIsCut | backend/document/document_loader.py:164-194 | the same through a document whose productive pages have distinct numbers |
| ChunkTexts.DocumentRoots | backend/document/document_loader.py:164-194 | for any document, the texts of its roots are the pieces of its pages, page by page |
| ChunkTreeTheorems.DistinctPagesGiveDistinctIds | backend/document/document_loader.py:168-193 | pages with distinct numbers give pairwise distinct chunk ids |
| ChunkTreeTheorems.DistinctIdsNeedDistinctPages | backend/document/document_loader.py:170-176 | distinct ids need distinct numbers on the pages that yield chunks |
| ChunkTreeTheorems.LoadedDocumentsAreValid | backend/document/ingestion.py:77-89 | the validator accepts the loader's output if and only if the productive pages have distinct numbers |
| ChunkTreeTheorems.UnnumberedPagesCollide | backend/document/document_loader.py:170-172 | two productive pages without numbers collide |
| ChunkTree.CheckIds | backend/document/ingestion.py:77-79 | true exactly for lists whose ids are present and distinct |
| ChunkTree.Validate | backend/document/ingestion.py:77-89 | accepts exactly valid lists, splits them into parents and leaves, and otherwise names the first fault |
| ChunkTreeTheorems.ValidMeans | backend/document/ingestion.py:77-88 | what is accepted, position by position: distinct non-empty ids, one document, levels 1 to 3, and for every lower chunk a chunk of its parent's id one level up |
| ChunkTreeTheorems.KeepPicks | backend/document/ingestion.py:80-89 | parents and leaves are the chunks of their levels, each in its place |
| ChunkTree.Chunks | backend/document/ingestion.py:63-89 | a saved manifest wins over loading, an empty load is an error that saves nothing |
| AutoMerge.GroupByParent | backend/rag/rag_utils.py:61-65 | one group per named parent, as large as the number of its children |
| AutoMerge.DropDuplicates | backend/rag/rag_utils.py:90-97 | the first item of every key, in order |
| AutoMerge.MergeToParentLevel | backend/rag/rag_utils.py:60-99 | one pass equals its declarative form, and so does the replaced count |
| AutoMergePass.ParentsGather | backend/rag/rag_utils.py:60-99 | for a parent in the store that k > 0 hits name: if k >= threshold some returned hit has its id and merged_child_count k and none of the hits is returned itself, otherwise all of them are |
| AutoMergePass.PassSpelledOut | backend/rag/rag_utils.py:74-97 | one pass by positions: in the place of the first child of a gathered parent stands the parent's row, with the larger of its own score and the child's; the other children are gone, other hits stay, all in order |
| AutoMergePass.ReplacedAreGathered | backend/rag/rag_utils.py:74-99 | the replaced count is the number of hits whose parent is gathered |
| AutoMergePass.BothPassesSpelledOut | backend/rag/rag_utils.py:112-114 | both passes over leaf hits are of that form |
| AutoMergeTheorems.TwoPassesReachFixpoint | backend/rag/rag_utils.py:112-114 | after two passes over distinct leaf hits a third replaces nothing |
| AutoMergeTheorems.TwoPassesSeparate | backend/rag/rag_utils.py:112-114 | no returned chunk's direct parent is also returned, and ids are distinct |
| AutoMergeTheorems.TwoPassesCover | backend/rag/rag_utils.py:112-114 | every hit is represented by itself, its parent or its grandparent |
| AutoMergeCounting.PassCounts | backend/rag/rag_utils.py:74-99 | the merged_child_count values brought in sum to the replaced count, and the list shrinks by at least threshold - 1 per merged parent |
| AutoMergeCounting.BothPassesCount | backend/rag/rag_utils.py:112-119 | both passes of a retrieval meet the counts |
| AutoMergeRanking.ReplacedMeansChanged | backend/rag/rag_utils.py:119-122 | a pass reports replacements if and only if it changed the list |
| AutoMergeRanking.AutoMergeDocuments | backend/rag/rag_utils.py:102-126 | the two passes, the stable sort, the cut and the reported figures; the disabled and empty cases |
| AutoMergeRanking.RankedFacts | backend/rag/rag_utils.py:116 | the sort is a permutation in descending order of score |
| AutoMergeRanking.RankedIsStable | backend/rag/rag_utils.py:116 | and keeps hits of equal score in order |
| AutoMergeRanking.CutKeepsTheBest | backend/rag/rag_utils.py:116-117 | nothing cut away scores more than anything returned |
| ChunkRetrieval.CorpusIsForest | backend/document/document_loader.py:164-194 | chunks of any documents form a forest with distinct stored ids if and only if no two productive pages agree in number and, up to leading white space, in namespace |
| ChunkRetrieval.ForestFeedsAutoMerge | backend/rag/rag_utils.py:71-79 | leaf hits and parent rows of such chunks meet the premises of auto-merging |
| ChunkRetrieval.RetrievalReachesFixpoint | backend/rag/rag_utils.py:112-114 | so hits on loaded documents reach the fixpoint, for any splitters and any live subset of parents |
| Synthesis.ArrivalOrderIsIrrelevant | backend/rag/rag_pipeline.py:30-32 | branches with distinct ids merge to one dictionary in any order |
| Synthesis.SubtaskIdsDiffer | backend/rag/rag_pipeline.py:597-600 | the sub-tasks of a fan-out have distinct ids |
| Synthesis.SynthesizeSubquestions | backend/rag/rag_pipeline.py:631-655 | the double loop yields the deduplicated round robin, numbered, with the missing and failed questions |
| SynthesisOrder.FailuresAreReported | backend/rag/rag_pipeline.py:655 | the questions reported as failed are, in planning order, those whose result is there under their index and failed |
| SynthesisOrder.MissingAreReported | backend/rag/rag_pipeline.py:654 | the questions reported as missing are, in planning order, those whose result is absent or has no documents |
| SynthesisOrder.EvidenceIsInOrder | backend/rag/rag_pipeline.py:635-652 | the evidence is the documents whose key has no earlier place in the dictionary, by rank first and branch second, numbered from one |
| Synthesis.SynthesisIsUnion | backend/rag/rag_pipeline.py:636-652 | no key twice, exactly the keys of all branches, ranks 1..m |
| Synthesis.SynthesisIsFair | backend/rag/rag_pipeline.py:638-650 | the item at rank r of any of n branches appears among the first (r + 1) * n |
| RagGraph.CapLosesNothing | backend/rag/rag_pipeline.py:412-416 | at most three sub-questions remain and their joined text is that of all of them |
| RagDecisions.CapSpelledOut | backend/rag/rag_pipeline.py:412-416 | three questions at most; of more, the first two and the others as one |
| RagGraph.WalkKeepsAt | backend/rag/rag_pipeline.py:717-746 | every node of every run is entered in a state of its kind: the counts so far, the strategy, the bounded sub-questions |
| RagGraph.WalksGoOn | backend/rag/rag_pipeline.py:717-746 | every beginning of a run extends to a complete one |
| RagGraph.EveryRunIsCounted | backend/rag/rag_pipeline.py:717-746 | every run ends, retrieval_calls is the number of retrievals made and lies in 1..1+MAX_PARALLEL_SUBTASKS |
| RagDecisions.RunRetrieves | backend/rag/rag_pipeline.py:158-480 | every complete run retrieves exactly the queries the models' answers call for, reports as many retrievals, and shows the round robin over the branches if it fanned out |
| RagGraph.ExpansionHasAStrategy | backend/rag/rag_pipeline.py:593-595 | the single-query expansion is entered only with step_back or hyde and retrieves once; a direct plan never decides a rewrite |
| RagGraph.NoSubQuestionIsDropped | backend/rag/rag_pipeline.py:593-600 | every sub-question left after capping is dispatched, and its result is what synthesis reads under its id |
| RagGraph.RunsAreConfluent | backend/rag/rag_pipeline.py:717-746 | complete runs that differ only in the order branches finish in visit the same states |
| ThinkTags.ConsumeThink | frontend/src/utils/sse.ts:19-45 | the marker search computes the character-by-character scan |
| ThinkTags.LengthIsConserved | frontend/src/utils/sse.ts:19-45 | every character is visible, hidden or part of a passed tag |
| ThinkTags.ThinkLengthIsConserved | frontend/src/utils/sse.ts:7-8 | with the tags in use a block costs 15 characters and an unclosed one 7 |
| ThinkTags.ScanAdds | frontend/src/utils/sse.ts:19-24 | the output of a call does not depend on what the message already holds |
| ThinkTags.ChunksReadAsWhole | frontend/src/utils/sse.ts:19-45 | any chunking that cuts no tag reads as the whole text |
| ThinkTags.SafeCuts | frontend/src/utils/sse.ts:6 | a cut is harmless for every continuation if and only if no tag is pending there |
| ThinkTags.StreamIsBatch | backend/rag/rag_utils.py:47-57 | the visible text equals the deletion of all non-greedy blocks if and only if every opened block is closed in the text |
| ThinkTags.StripThinkTrimsVisible | backend/rag/rag_utils.py:50-57 | then strip_think is the streamed text, trimmed |
| EventStream.TakeEvents | frontend/src/stores/chat.ts:304-338 | the inner loop takes the complete events off the buffer, in order, and keeps the rest |
| EventStream.ReadStream | frontend/src/stores/chat.ts:295-339 | reading chunk by chunk equals draining the concatenated text |
| EventStream.EveryChunkingReadsBack | backend/agent/agent.py:720-740 | for every cutting of the framed payloads draining recovers them in order, less the end marker, with an empty buffer |
| EventStream.ReadPayloads | frontend/src/stores/chat.ts:295-339 | so the chunk-by-chunk reader receives exactly the payloads |
| EventStream.ChatStreamReadsBack | backend/agent/agent.py:720-740 | the same for the format of the endpoint and any newline-free payloads |
| EventStream.EndIsNotKept | frontend/src/stores/chat.ts:309-311 | what the client keeps, payload by payload: all but the end marker [DONE] |
| EventStream.BrokenStreamReadsPrefix | frontend/src/stores/chat.ts:298-339 | a stream that breaks off has delivered a prefix of its payloads |
| EventStream.WireFrames | backend/agent/agent.py:724-740 | a payload can be framed if and only if it has no blank line and no final line break, as all newline-free payloads |
| SanitizerForms.KeptTextIsNormal | backend/document/text_sanitizer.py:53-66 | before private-use removal no dropped, wide or odd space character, no double space and no triple line break remains |
| Sanitizer.StrippingIdempotence | backend/document/text_sanitizer.py:54-71 | on composed text a second application changes nothing if and only if the text without stripping has no two spaces and no three line breaks that only private-use characters keep apart |
| SanitizerForms.KeepingIdempotence | backend/document/text_sanitizer.py:49-66 | for any canonical composition and private use kept: a second application changes nothing if and only if the characters left after removal and width folding are composed as they stand |
| SanitizerForms.StrippedIdempotence | backend/document/text_sanitizer.py:49-71 | with stripping: if and only if the characters left after removal, width folding and stripping are composed as they stand, and private use keeps no two spaces and no three line breaks apart |
| SanitizerForms.FoldingKeepsComposed | backend/document/text_sanitizer.py:62-66 | folding line breaks, spaces and blank lines neither composes a text nor takes it apart |
| SanitizerForms.UntouchedSettlesAtOnce | backend/document/text_sanitizer.py:49-71 | where no character is removed or replaced before white space is folded, one application is enough, with stripping too if there is no private use |
| SanitizerForms.ApplicationsSettle | backend/document/text_sanitizer.py:49-71 | two applications reach a fixpoint on every text, with private use kept or stripped |
| SanitizerForms.AccentMeetsItsLetter | backend/document/text_sanitizer.py:54-59 | a letter, a zero-width space and an accent are a counterexample for one application |
| SanitizerForms.NameIsStoredUnchanged | backend/document/text_sanitizer.py:74-86 | a file name is stored as it is if and only if it is composed and has none of the removed characters |
| Sanitizer.TwoApplicationsSettle | backend/document/text_sanitizer.py:54-71 | on composed text two applications reach a fixpoint |
| Sanitizer.OneApplicationMayNotSettle | backend/document/text_sanitizer.py:63-70 | a private-use character between two spaces is a counterexample for one |
| SanitizerPasses.CharactersAppend | backend/document/text_sanitizer.py:54-62 | character by character, what is dropped, what becomes narrow and what becomes a plain space |
| SanitizerPasses.LineBreaksAppend | backend/document/text_sanitizer.py:64 | every line end becomes one line feed, and a line feed after a carriage return belongs to it |
| SanitizerPasses.SpaceRunsAppend | backend/document/text_sanitizer.py:65 | a run of spaces and tabs becomes one space |
| SanitizerPasses.BlankLinesAppend | backend/document/text_sanitizer.py:66 | a line feed after two others is dropped |
| SanitizerPasses.StrippedAppend | backend/document/text_sanitizer.py:68-70 | stripping drops the characters of both private-use areas and no other |
| SanitizerPasses.MetadataAppend | backend/document/text_sanitizer.py:74-86 | a stored name loses the dropped characters and the first private-use area, and nothing else changes |
| ParentStore.ParentChunkStore.UpsertDocuments | backend/document/parent_chunk_store.py:36-96 | rows and cache entries after an upsert, blank ids skipped, failing cache writes left out |
| ParentStore.ParentChunkStore.GetDocumentsByIds | backend/document/parent_chunk_store.py:98-129 | the rows returned, in request order, and the refilled cache |
| ParentStore.ParentChunkStore.SetDocumentDeleted | backend/document/parent_chunk_store.py:131-147 | all rows of the document are flagged, and the entries whose delete gets through are gone |
| ParentStore.ParentChunkStore.PurgeByDocumentId | backend/document/parent_chunk_store.py:161-176 | rows and reachable entries of the document are gone |
| ParentStore.ParentChunkStore.DeleteByFilename | backend/document/parent_chunk_store.py:178-198 | the same by filename, legacy rows only if asked |
| ParentStoreRows.UpsertSpelledOut | backend/document/parent_chunk_store.py:36-83 | a written row is the last document of its trimmed id, without a deletion time |
| ParentStoreRows.UpsertCounts | backend/document/parent_chunk_store.py:36-96 | as many rows are reported as there are documents with an id |
| ParentStoreRows.LookupSpelledOut | backend/document/parent_chunk_store.py:98-129 | the answer, in the order of the request, is that of the cache or else the live row, for every id given as it is stored |
| ParentStoreRows.RefillSpelledOut | backend/document/parent_chunk_store.py:110-127 | afterwards the cache has, besides, the live rows it had to ask for, as far as writes get through |
| ParentStoreRows.FlagsSpelledOut | backend/document/parent_chunk_store.py:131-147 | all rows of the document are flagged and no other |
| ParentStoreRows.RemovalsSpelledOut | backend/document/parent_chunk_store.py:161-198 | a purge and a removal by name take away exactly the rows that are meant |
| ParentStoreTheorems.CoherentMeansTransparent | backend/document/parent_chunk_store.py:98-129 | the cached lookup answers every request as the database alone, whichever reads fail, if and only if the cache is coherent |
| ParentStoreTheorems.StepCoherence | backend/document/parent_chunk_store.py:36-198 | an operation keeps the cache coherent if and only if its failing cache calls hit no live, differing entry |
| ParentStoreTheorems.EveryLookupIsTransparent | backend/document/parent_chunk_store.py:36-198 | after any run with tolerable failures and any expiry, every lookup returns the live rows in request order |
| ParentStoreTheorems.LostWriteShowsOldRow | backend/infra/cache.py:36-41 | a lost cache write over a live entry makes the lookup return the old row |

## Left out

- PublicationTheorems.ClaimsAreBounded: bounds claims until the upload leaves staging, because afterwards there may be none; `PublicationClaims.ClaimsFollowTheRow` has the exact condition.
- PublicationTheorems.HeadsAreComplete: is about the protocol in which restores wait for the upload job; `PublicationRaces.RestoreGuardDecides` shows that it fails in the one in which they do not.
- ChatTheorems.StoppedExecutionsEndTheirRun: says nothing about executions whose finalizer did not see `stopped`; `ChatCancel` does.
- EventStream.ReadStream: reads decoded text; the byte decoder and the JSON parser are not part of this model.
- SanitizerForms.StrippedIdempotence: canonical composition enters by its properties; its tables are not part of this model.
- ParentStoreTheorems.StepCoherence: all cache writes of one key in one upsert get through or fail together, and operations run one after another.
- ParentStore.ParentChunkStore.UpsertDocuments: the text and the columns other than id, document, filename and deletion marks are one field.
- The parent check of `process` reads through the cache; the protocol reads the rows, which is the same while the cache is coherent.
- Rows of the parent and vector stores are kept per document; `ChunkTreeTheorems.RenderInjective` is why no write reaches a row of another document.
- Jobs are named by their document and runs by their row number; random ids, timestamps, error texts, progress percentages, retry delays and the retirement grace period are abstracted.
- The legacy job status `uploading`, the physical deletion of legacy rows and the migration script.
- Database failures inside `save` and the control calls, session deletion, `superseded_by` marks, message caches, `mark_waiting` and `mark_completed`, which have no caller.
- The scoring of hits, reranking and context formatting, and the documents kept by the initial and the single-query retrieval; only the synthesized evidence is followed.
- What the clarification detector, the router and the graders answer; the graphs take their answers as inputs.
- `splitThinking` and the rendering of events in the client beyond text and hidden text.
- Vue components, authentication, HTTP endpoints, the weather tool and the evaluation scripts.
