# pkgctl: a verified model of the crash-safe controller

pkgctl is a package control plane. A target operation has physical effects that cannot be
repeated, so a controller writes an intent record before each effect and a terminal record
after it; an operation is one node of a larger transaction, so a ledger decides which node may
run, and a serial runner drives the ledger from a durable head. This project models that
machinery and proves what it is for: effects happen at most once, nothing confirmed is lost, the
ledger never finds itself invalid, and a drive over an acyclic graph reaches the end; and where
the code does not keep such a promise, exactly when it does.

The modules follow the repository's own layers.

- **The effect attempt.** `EffectJournal` has the ten-stage record with its three independent
  definitions (transition methods, shape validator, successor relation), and
  `EffectJournalLaws` shows that they agree. `EffectProtocol` states one attempt as a process
  of single actions. `EffectStorage` adds what a power loss would leave: a live head that need not
  be durable, and a kill between the rename of a head and its last sync. `EffectSafety` proves the
  laws of whole series of executions, restarts, kills and power losses, `EffectRequests` that all
  publications of an attempt are one request, and `EffectOrder` exactly when the order of
  publications and resumptions is kept, with `EffectLostIntent` as the series that loses it.
  `EffectEvidence` shows what a request and an attempt identity stand for.
  `EffectTransparency` and `EffectRecovery` compare the process with the executor without a journal
  and with the uninterrupted execution, and `EffectVerdicts` says what every kind of evidence makes
  of an attempt. `EffectValidation` has the validators and the identity fields as loops and checks,
  and `EffectExecutor` the executors as methods on a controller object, proved to perform exactly the
  actions of the process.
- **The journal store.** `EffectStore` is a directory with volatile and durable entries that is
  changed one call at a time, `EffectStoreHistory` what any series of appends, errors and crashes
  makes of it, and `StoreNames` its file names. `EffectHeads` shows that the directory moves the two
  heads of an attempt as `EffectStorage` does. `Formats`, `EffectCodec` and `EffectCodecStreams`
  are the binary record, as a format with laws and as a writer and a reader, and `EffectCapacity`
  is its size, `EffectChecksum` the digest at its end. `Identity` is the length-prefixed framing
  below every identity.
- **Progression and dispatch.** `Progression`, `ProgressionUnits`, `ProgressionEvidence` and
  `ProgressionSweeps` contract the graph into units and derive the node statuses. `Dispatch` is the
  ledger, `DispatchChecks` its loops, `DispatchLaws` and `DispatchSchedule` what every history keeps;
  `DispatchOutcomes` writes out what each command accepts and does, and `DispatchReports` states the
  schedule by the commands alone.
- **The runner.** `RunJournal`, `RunJournalLaws` and `RunJournalChecks` are the chain of run
  snapshots; `Runner` is one step as a plan of writes, and the drive. `RunnerLaws`, `RunnerSteps`,
  `RunnerDrive`, `RunnerProgress` and `RunnerLiveness` prove its safety and liveness, and
  `RunnerOutcomes` what each answer of a drive means. `RunnerStorage` has the run
  journal under kills and power losses, and exactly when a node keeps to one attempt;
  `RunnerLostStart` is the series in which it does not. `RunnerRecovery`,
  `RunnerAnswers`, `RunnerLimits` and `RunnerWitnesses` say exactly when a drive's result is
  accepted. `RunnerController` has the steps as methods that may be killed before any append.
- **Algorithms.** `LifecycleOrder` (Kahn's algorithm), `RuntimeClosure` (a worklist) and
  `Construction` (coordinate and resource admission), with `PathNormalForm` for the paths.
  `Sequences` and `Wrappers` are helpers.

## Where a promise does not hold as it stands

The model follows the code. Each of these is a lemma with a concrete witness, beside a lemma
that says exactly when the promise does hold.

- Restoring accepts `completed` records without any evidence
  (`EffectJournalLaws.ShapeAdmitsEmptyCompletion`). A record that is reached by transitions always
  carries everything; among records that are only shaped, the full ones are those with
  publication authority (`CompletedShapeIsFullIff`).
- The intent of a call is to be durable before the call, and a second publication to follow a
  read of the expected state directly. Both fail after an append that was killed between the
  rename of the head and the last sync: the restart takes the live head as it is, publishes, and after a power loss
  the next restart begins and makes the publication again without a read, and seals it as not
  published although the state has moved (`EffectLostIntent.LostIntentPublishesTwice`). The order is
  kept if and only if no restart goes on to its call from a publication intent, or a declared
  application intent, that is live and not durable (`EffectOrder.OrderIsKeptExactly`); a caller
  rules that out by appending the loaded head again before the restart
  (`EffectOrder.RestartIsOrderedExactly`, `EffectHeads.LoadedHeadIsAccepted`). Lifecycle sessions and
  the application still happen at most once, and the state still moves at most once.
- A node is to be attempted once. This fails when the start of its dispatch is live and not
  durable, a step recovers it, and a power loss takes the start back: the reservation is released,
  and a fresh dispatch performs the effects again (`RunnerLostStart.LostStartRunsTwice`). Every effect has
  its start durable if and only if no step recovers a start that is live and not durable
  (`RunnerStorage.StartsAreDurableExactly`), and then a node has one attempt (`NodeHasOneAttempt`).
- A crash in the very first append of an attempt, after the link and before the head, leaves a
  directory that loads as corrupt. Only the exact retry of that append is accepted
  (`EffectStoreHistory.InterruptFirstAppend`, `LoadAfterCrash`, `RetryIsAccepted`).
- Not even that retry is accepted when the first head was live but never durable, the second
  append linked its snapshot, and a crash kept the snapshots and lost the head (`LoseFirstHead`).
  The retry of a record whose head was lost is accepted if and only if an older head remains or
  no other snapshot of the attempt survived (`CrashDuringAppend`).
- The name parser skips the separator before the identity, so it reads names that no record has
  (`StoreNames.SeparatorIsNotChecked`); it is exact if and only if that character is a dash.
- Admission accepts 65536 lifecycle steps for each side, but the records of an attempt fit the
  megabyte of their encoding, in every history, if and only if the two totals add up to at most
  14349 (`EffectCapacity.TotalsFitExactly`; `OversizedIsReached` is the witness).
- The disjointness check of construction coordinates compares path components, and a trailing
  separator adds an empty component: "/a/" and "/a/b" pass (`TrailingSeparatorHidesOverlap`).
  Two admitted coordinates share a path if and only if one that ends in a separator is above the
  other (`AdmittedShareExactly`).
- The result check of a drive can refuse the drive's own result. From a sound head it never does,
  whatever the bound and the answers, if and only if the run has stopped, or no started operation
  waits behind another active dispatch and either nothing is active or ready or the open units
  have no cycle (`RunnerLimits.NeverRejectedExactly`). `RunnerWitnesses` reaches a head for each
  of the two ways to fail.
- `lifecycle_side` collects its members in a set, while the acceptance of an order compares lists:
  an order is refused if and only if a phase edge is duplicated (`LifecycleOrder.SideIsAcceptedIff`,
  and `DuplicatedEdgeIsRefused` for one that is).

## Model

| member | source | states |
|---|---|---|
| `Identity.FrameFieldsInjective` | src/identity.cpp:27-39 | The framed stream determines the list of fields: no two lists share a stream. |
| `Identity.SessionIdentityInjective` | src/identity.cpp:83-105 | Equal identities have equal domain and fields, given only that the hash does not collide on these two streams. |
| `Identity.DigestContext.AddField` | src/identity.cpp:27-39 | The byte loop appends exactly the eight-byte big-endian length and the value to the stream. |
| `Identity.ComputeSessionIdentity` | src/identity.cpp:83-105 | The incremental computation yields the digest of the whole framed stream. |
| `EffectJournalLaws.GuardsSuffice` | src/effect_journal.cpp:911-1147 | A transition method succeeds if and only if its own guard holds and, for a seal, the outcome fits the publication evidence: apart from that fit, neither the shape validator nor the successor check ever refuses what a method builds. |
| `EffectJournalLaws.SealGuardMissesExactly` | src/effect_journal.cpp:1076-1147 | What the guard of a seal alone misses: a reconciled state beside another outcome than completed, and an outcome that contradicts the publication evidence; exactly these are refused afterwards. |
| `EffectJournalLaws.DraftSucceeds` | src/effect_journal.cpp:534-708 | What an enabled method builds passes the whole successor relation. |
| `EffectJournalLaws.StepDefinitionsAgree` | src/effect_journal.cpp:534-708 | On valid records the successor relation accepts a pair if and only if some transition method turns the first into the second. |
| `EffectJournalLaws.SequenceBound` | src/effect_journal.cpp:130-204 | A shaped record has a sequence of at most 2(a+b)+5. |
| `EffectJournalLaws.HistoryIsNumbered` | src/effect_journal.cpp:911-957 | In every chain from admission the i-th record is valid, of the same attempt, has sequence i, and i is the closed-form count. |
| `EffectJournalLaws.SequenceTellsStage` | src/effect_journal.cpp:130-204 | Non-terminal records with equal totals and sequence have equal stage and evidence counts. |
| `EffectJournalLaws.EvidenceIsAppendOnly` | src/effect_journal.cpp:479-532 | Along every chain, evidence that one record holds is held unchanged by all later ones. |
| `EffectJournalLaws.CompletedCarriesEverything` | src/effect_journal.cpp:1076-1147 | A reached completed record holds all pre and post successes, a completed application, and a published or reconciled state. |
| `EffectJournalLaws.ShapeAdmitsEmptyCompletion` | src/effect_journal.cpp:427-442 | For every hash there is a completed record without application evidence that restoring accepts as it is. |
| `EffectJournalLaws.CompletedShapeIsFullIff` | src/effect_journal.cpp:427-442 | A shaped completed record carries everything if and only if it has publication authority. |
| `EffectJournalLaws.IdentityFieldsInjective` | src/effect_journal.cpp:64-128 | The flattened field vector, with its nested lists and optionals, determines every field of a shaped record. |
| `EffectJournalLaws.RecordIdentityInjective` | src/effect_journal.cpp:64-128 | Two valid records with one identity are equal, unless their two streams collide. |
| `EffectValidation.ValidateShape` | src/effect_journal.cpp:206-449 | The checks in their order, with their loops over the retained facts, accept exactly the records of the specified shape. |
| `EffectValidation.CountRetained` | src/effect_journal.cpp:130-204 | The switch over stage and outcome gives the closed-form count, and none for a lease lost after a publication intent. |
| `EffectValidation.ValidateSuccessor` | src/effect_journal.cpp:534-708 | The chain, authority, fact and stage checks accept exactly the specified successors. |
| `EffectValidation.PushRecord` | src/effect_journal.cpp:64-128 | The fields pushed one by one, facts in loops, are the vector that the identity of a record is made of. |
| `EffectValidation.PushTransaction` | src/effect.cpp:422-440 | The fields pushed one by one, every pre and every post result in its loop, are those of the transaction evidence. |
| `EffectProtocol.AdmitIff` | src/effect_journal.cpp:888-909 | Admission succeeds if and only if neither lifecycle count exceeds the bound. |
| `EffectProtocol.Admission` | src/effect_journal.cpp:888-909 | The admitted record is valid, at sequence zero, with the totals of the session. |
| `EffectSafety.StepKeepsInvariant` | src/effect.cpp:1071-1237 | Every single action of an executor or a restart keeps the invariant that ties both heads, the log and the process together. |
| `EffectSafety.RunKeepsInvariant` | src/effect.cpp:1071-1237 | So does every run cut after any number of actions. |
| `EffectSafety.SeriesKeepsInvariant` | src/effect.cpp:1276-1595 | So does every series of executions, restarts, kills between or inside appends, write-backs and power losses. |
| `EffectSafety.KillKeepsInvariant` | src/effect_store.cpp:613-660 | A kill inside the append that is next, after the rename of the head and before its last sync, keeps the invariant of both heads and the log. |
| `EffectSafety.HeadsRetainEvidence` | src/effect.cpp:574-585 | The head that is durable at a later action keeps the evidence of the one that was durable at an earlier one, across kills and power losses. |
| `EffectSafety.SeriesWritesOneHistory` | src/effect_store.cpp:662-687 | After any series the live and the durable head both end a successor chain from admission, and the live one is the durable one or its direct successor. |
| `EffectSafety.EffectsHappenAtMostOnce` | src/effect.cpp:1460-1583 | Over every series, power losses and kills inside an append included, no lifecycle session is executed twice and the application is applied at most once, whatever the drivers answer. |
| `EffectSafety.StateMovesAtMostOnce` | src/effect.cpp:1388-1446 | Over every series with stores that compare, canonical state moves at most once, also when a lost intent is published again. |
| `EffectSafety.IntentPrecedesEffect` | src/effect.cpp:1101-1141 | Whenever a lifecycle session or the application is performed, the durable head is the intent of exactly that call. |
| `EffectSafety.BodiesPrecedeRecords` | src/effect.cpp:1101-1216 | With a body sink, a record is appended, durably or not, only when all bodies it names are retained. |
| `EffectStorage.StoredIsRun` | src/effect_store.cpp:778-853 | As long as nobody loses power, keeping the durable head beside the live one changes nothing that a process does. |
| `EffectHeads.StoreMovesHeads` | src/effect_store.cpp:778-853 | Every append that is stopped anywhere or returns, every clean-up and every crash moves the live and durable head of each attempt by one of the moves that the storage of an attempt makes. |
| `EffectHeads.StoreRefinesStorage` | src/effect_store.cpp:778-853 | So the store refines the storage of the processes: an append that returns is the process's own event, an interrupted one is the kill before, inside or after it, and a crash is a write-back or a power loss. |
| `EffectHeads.LoadedHeadIsAccepted` | src/effect_store.cpp:778-803 | The loaded head may be appended again, and when that returns it is durable. |
| `EffectHeads.KillAfterRename` | src/effect_store.cpp:613-660 | For every record that an append accepts, a kill reaches the directory in which it is live and loaded while the earlier head is the durable one. |
| `EffectRequests.PublicationsAskTheSame` | src/effect.cpp:1199-1207 | Over every series all publications carry one request: what the evidence of the durable head projects to. |
| `EffectEvidence.TransactionEvidenceInjective` | src/effect.cpp:422-440 | Equal transaction evidence has one session, equal pre and post results in their order and equal completed evidence, unless the two streams collide. |
| `EffectEvidence.PublicationProjectsEvidence` | src/effect.cpp:1199-1207 | Over every series each publication asks for the projection of the completed evidence and of the transaction that all lifecycle results of the durable head make, one for each step of the session. |
| `EffectEvidence.RequestDeterminesEvidence` | src/effect.cpp:1199-1207 | If two series ever publish one request, they are of one session with the same pre results, post results and completed evidence, unless the two streams collide. |
| `EffectEvidence.AttemptIdentityInjective` | src/effect_journal.cpp:888-909 | Admissions with one attempt identity are of one session and one nonce, unless the two streams collide. |
| `EffectOrder.OrderIsKeptExactly` | src/effect.cpp:1388-1446 | Every call, resumptions and second publications included, has its intent durable, and every publication but the first directly follows a read of the expected state, if and only if no restart of the series goes on to its call from a publication intent, or a declared application intent, that is live and not durable. |
| `EffectOrder.RestartIsOrderedExactly` | src/effect.cpp:1276-1329 | From every state that such a series leaves, a restart keeps that order wherever it is killed if and only if its head is durable or none that it would act on; and it is, once the loaded head has been made durable. |
| `EffectOrder.PerformedIntentIsDurable` | src/effect.cpp:1503-1538 | The intent of a lifecycle session or application that was really performed is durable, so a declaration that the attempt itself has left is safe to resume. |
| `EffectLostIntent.LostIntentPublishesTwice` | src/effect.cpp:1388-1446 | A reached series, whatever the hash: a publication on an undurable intent moves the state, a power loss takes the intent back, and the next restart publishes again without a read and seals the attempt as not published, while the plain execution completes. |
| `EffectTransparency.JournalingIsTransparent` | src/effect.cpp:1071-1237 | For the same driver and lease answers the durable execution ends with the result of the executor without a journal and makes the same calls in the same order. |
| `EffectRecovery.CrashRestartRefines` | src/effect.cpp:1276-1595 | An execution that is cut and restarted any number of times, the restarts themselves included, ends at the record that the uninterrupted execution reaches, as long as each restart takes up what was going on: at a boundary, inside an application that resumes or whose receipt was retained, or before a publication has moved anything. |
| `EffectRecovery.RestartIsOnCourse` | src/effect.cpp:1276-1595 | A restart that takes up what was going on is on course again, so that it may be cut itself. |
| `EffectRecovery.LifecycleIntentIsLeftAlone` | src/effect_restart.cpp:133-204 | A restart at a lifecycle intent performs nothing at all: the outcome is for an external resolution. |
| `EffectRecovery.ApplicationRestartSettles` | src/effect.cpp:1503-1538 | A restart at an application intent that the application layer resumes with the same receipt ends at the uninterrupted final record, and stays on course when it is cut. |
| `EffectRecovery.AheadReceiptSettles` | src/effect.cpp:1483-1501 | A restart that finds the receipt which the journal lost ends there too, without touching the application, and stays on course when it is cut. |
| `EffectRecovery.PublicationRestartSettles` | src/effect.cpp:1388-1446 | A restart at a publication intent that still reads the expected state ends at the uninterrupted final record, and stays on course when it is cut. |
| `EffectRecovery.ReconciledRestartSettles` | src/effect.cpp:1388-1446 | A cut after the publication and before its receipt ends completed, with the state it reads as reconciled state and no publication fact. |
| `EffectRecovery.UnneededDriverIsUnused` | src/effect_restart.cpp:206-228 | When the predicate asks for no continuation driver, the restart executes no lifecycle step and does not touch the application, however far it runs. |
| `EffectRecovery.DriverIsNeededIff` | src/effect_restart.cpp:206-228 | With the lease held and an application that can go on, the predicate is false exactly when the restart only settles or seals. |
| `EffectVerdicts.RestartsByEvidence` | src/effect_restart.cpp:133-228 | For every shaped head and all bodies: a restart refuses the bodies, stops for an operator, reads the state, lacks a lease or has nothing left, and asks for a continuation driver, each if and only if the stage, the last result and the outcome are the ones listed. |
| `EffectVerdicts.RestartSealsDecided` | src/effect.cpp:1357-1384 | At a failed lifecycle result, a definitively failed application or a definite publication receipt the restart appends one record, sealed with that outcome and all its evidence, with or without a lease. |
| `EffectVerdicts.ReadStateCompletes` | src/effect.cpp:1388-1420 | From a publication intent, or a receipt that is unconfirmed or indeterminate, a restart that reads the resulting state seals the attempt completed, with that state as reconciled state and the publication fact as it was. |
| `EffectVerdicts.OtherStateWaits` | src/effect.cpp:1421-1427 | If it reads another state after such a receipt, or a third state at the intent, it reads once, publishes nothing, leaves the head and stops for an operator. |
| `EffectVerdicts.RecordedIsSealed` | src/effect.cpp:1109-1237 | An execution that has just recorded evidence of a failure, or a definite receipt, seals exactly the outcome that the evidence decides. |
| `EffectVerdicts.RecordedIsLeft` | src/effect.cpp:1142-1151 | An application with partial effects, unconfirmed durability or no known end, and a publication that is unconfirmed or indeterminate, are never sealed: the process stops and the receipt stays the head. |
| `EffectVerdicts.LostLeaseIsSealed` | src/effect.cpp:1189-1198 | Where the next step asks for the lease and it is lost, the attempt is sealed before anything else is begun. |
| `EffectVerdicts.FinalHeadsStay` | src/effect_restart.cpp:133-204 | A lifecycle session in flight, an application that nobody can judge and a sealed attempt are final: whatever is started, killed or lost afterwards, nothing happens to the attempt. |
| `EffectExecutor.ExecutePlain` | src/effect.cpp:959-1069 | The executor without a journal makes the calls and returns the report of the plain specification. |
| `EffectExecutor.Controller.Append` | src/effect.cpp:574-585 | An append makes the successor durable and continues after it, or stops the process; a kill inside it leaves the successor live and the earlier head durable. |
| `EffectExecutor.Controller.DeliverEvidence` | src/effect.cpp:1101-1108 | The body is retained before the record that names it. |
| `EffectExecutor.Controller.Seal` | src/effect.cpp:1230-1236 | Sealing appends the terminal record and returns its outcome. |
| `EffectExecutor.Controller.LifecycleEffect` | src/effect.cpp:1087-1121 | One session between intent and terminal record performs exactly the actions of the process and adds one fact to its own side. |
| `EffectExecutor.Controller.ApplicationEffect` | src/effect.cpp:1134-1151 | The application between its records, by apply or resume, performs exactly the actions of the process. |
| `EffectExecutor.Controller.JudgeApplication` | src/effect.cpp:1142-1151 | A receipt that is not completed ends the attempt as the process does; a completed one lets it go on. |
| `EffectExecutor.Controller.PublicationEffect` | src/effect.cpp:1200-1237 | Publication, its record and the seal perform exactly the actions of the process. |
| `EffectExecutor.Controller.ContinueBeforeApplication` | src/effect.cpp:1087-1151 | From any boundary before the application the loop performs the rest of the process. |
| `EffectExecutor.Controller.ContinueAfterApplication` | src/effect.cpp:1153-1237 | From any boundary after the application the loop performs the rest of the process. |
| `EffectExecutor.Controller.ExecuteDurable` | src/effect.cpp:1071-1237 | Both heads, log and result of the durable executor are those of the process started fresh, wherever it is killed, also inside an append. |
| `EffectExecutor.Controller.ReconcilePublicationEffect` | src/effect.cpp:1388-1446 | Reconciliation reads canonical state first and performs exactly the actions of the process. |
| `EffectExecutor.Controller.ResumeOperation` | src/effect.cpp:1276-1595 | Both heads, log and result of the restart are those of the process started from the checkpoint, wherever it is killed, also inside an append. |
| `EffectStore.CrashKeepsSound` | src/effect_store.cpp:613-660 | Whatever entries a crash keeps, no head names a missing snapshot, and each head is the live or the durable one. |
| `EffectStoreHistory.CrashStaysInFlight` | src/effect_store.cpp:778-853 | A crash at any point of an append leaves a sound directory whose head is the durable one at the start, the live one at the start, or the new record, and within the append unless the live one was lost. |
| `EffectStoreHistory.RetryIsAccepted` | src/effect_store.cpp:552-558 | The exact retry is accepted from every point of the append, also when the snapshot has no head yet. |
| `EffectStoreHistory.LoadAfterCrash` | src/effect_store.cpp:461-562 | For a later record a load returns the old or the new record; for the first it may fail as corrupt, exactly when the snapshot is there without a head, and then every other pending record fails too. |
| `EffectStoreHistory.CrashDuringAppend` | src/effect_store.cpp:778-853 | From any directory, its live head durable or not: if the crash keeps that head or the new one the retry is accepted; if it loses an undurable head, the retry of the lost record is accepted if and only if an older head remains or no other snapshot of the attempt survived. |
| `EffectStoreHistory.StepKeepsChain` | src/effect_store.cpp:778-853 | Every append that is stopped anywhere or returns, every clean-up and every crash takes the chain of an attempt to itself, to one record more, or to one undurable record less; durable records stay. |
| `EffectStoreHistory.HeadsFormOneChain` | src/effect_store.cpp:662-687 | After any series of appends, errors, kills and crashes the live head ends a successor chain from sequence zero, the durable head is at most one record behind, and every head that was ever durable and every record whose append returned is in it at the place of its sequence number. |
| `EffectStoreHistory.InterruptFirstAppend` | src/effect_store.cpp:552-558 | A directory reached by stopping the first append: it loads as corrupt, and the exact retry is accepted. |
| `EffectStoreHistory.LoseFirstHead` | src/effect_store.cpp:552-558 | A reached directory that no record at all is accepted into: the first head was never durable, and a crash kept a second snapshot. |
| `EffectStore.Store.LoadLatest` | src/effect_store.cpp:461-562 | The scan of the directory computes the specified load, with its error cases. |
| `EffectStore.Store.PublishHead` | src/effect_store.cpp:613-660 | Every call of the head replacement keeps the append in flight and other attempts as they are; the head is the record from the rename on, and durable when the method returns. |
| `EffectStore.Store.LinkSnapshot` | src/effect_store.cpp:564-589 | Linking keeps the append in flight, leaves every head alone, and ends with the snapshot, and whatever was undurable before, durable. |
| `EffectStore.Store.Append` | src/effect_store.cpp:778-853 | From every sound directory, however unsettled, an append succeeds exactly for the retry of the live head or its successor, if that can be encoded, and names the error otherwise; at every call it leaves the heads that the append may leave, other attempts untouched, and when it returns the record is the durable head; a refused one changes no snapshot or head. |
| `StoreNames.ReadSequence` | src/effect_store.cpp:298-306 | The digit loop with its overflow test reads exactly the numbers of 64 bits. |
| `StoreNames.NameIsParsed` | src/effect_store.cpp:285-311 | The parser returns what a name was made of. |
| `StoreNames.ParsedNameIsExactly` | src/effect_store.cpp:285-311 | A parsed name is the name of its sequence and identity if and only if the separator is a dash. |
| `StoreNames.SeparatorIsNotChecked` | src/effect_store.cpp:285-311 | The parser accepts a name that no record has. |
| `StoreNames.NamesAreInjective` | src/effect_store.cpp:102-119 | Different snapshots have different names. |
| `Formats.NumberIsLawful` | src/effect_journal_codec.cpp:105-111 | Fixed-width numbers: reading inverts writing, and only the bytes written for a number are read as it. |
| `Formats.TextIsLawful` | src/effect_journal_codec.cpp:119-129 | The same for length-prefixed text. |
| `Formats.PairIsLawful` | src/effect_journal_codec.cpp:217-280 | Concatenation of two lawful formats is lawful. |
| `Formats.OptionalIsLawful` | src/effect_journal_codec.cpp:130-131 | An optional of a lawful format is lawful; flags other than zero and one are refused. |
| `Formats.ListIsLawful` | src/effect_journal_codec.cpp:171-177 | A counted list of a lawful format is lawful within the bound on the count. |
| `EffectCodec.RecordIsLawful` | src/effect_journal_codec.cpp:217-397 | The whole record format is lawful in both directions. |
| `EffectCodec.ValidRecordsAreWritable` | src/effect_journal_codec.cpp:217-280 | Every shaped record within the counts is in the domain of the format. |
| `EffectCodec.DecodingInvertsEncoding` | src/effect_journal_codec.cpp:282-397 | Decoding the encoding of a valid record returns the record. |
| `EffectCodec.EncodingInvertsDecoding` | src/effect_journal_codec.cpp:282-397 | Accepted bytes are reproduced by encoding again, though the decoder never does; the accepted record is valid. |
| `EffectChecksum.EncodingEndsInDigest` | src/effect_journal_codec.cpp:271-280 | Every encoding ends in the thirty-two bytes that the hexadecimal digest of all bytes before them writes out. |
| `EffectChecksum.AcceptedEndsInDigest` | src/effect_journal_codec.cpp:282-300 | So does every byte string that the decoder accepts. |
| `EffectChecksum.TamperingNeedsCollision` | src/effect_journal_codec.cpp:290-294 | If the bytes before the digest are changed and the digest is kept, acceptance means that the two prefixes collide. |
| `EffectChecksum.HexIsRead` | src/effect_journal_codec.cpp:271-274 | Writing the bytes of a hexadecimal text out as text gives that text back. |
| `EffectChecksum.HeaderIsExact` | src/effect_journal_codec.cpp:217-232 | Every encoding begins with the twelve bytes of the magic and the two version numbers, and no others are accepted. |
| `EffectCapacity.EncodesExactly` | src/effect_journal_codec.cpp:271-280 | Any record is written if and only if 73 bytes a fact and its overhead, field by field, are within the limit, and the encoding has exactly that size. |
| `EffectCapacity.SizeBound` | src/effect_journal_codec.cpp:217-280 | A shaped record takes at most 73 bytes for each lifecycle step of its totals and 1075 more. |
| `EffectCapacity.ReachLargest` | src/effect_journal.cpp:911-1147 | Every attempt has a history, by the transition methods, to a completed record of exactly that size. |
| `EffectCapacity.TotalsFitExactly` | src/effect_journal.cpp:888-909 | For admitted totals, every record of every history of the attempt can be written if and only if the totals add up to at most 14349. |
| `EffectCapacity.OversizedIsReached` | src/effect_journal_codec.cpp:271-280 | Beyond that, a history to a record that is refused. |
| `EffectCapacity.TooManyFactsAreRefused` | src/effect_journal_codec.cpp:271-280 | A record with more than 14359 lifecycle facts is refused whatever its other fields are. |
| `EffectCodecStreams.Writer.Raw` | src/effect_journal_codec.cpp:51-60 | Bytes are appended unless the encoding would exceed its limit, which is recorded as the refusal. |
| `EffectCodecStreams.Writer.Long` | src/effect_journal_codec.cpp:41-49 | The shift loop writes the big-endian number. |
| `EffectCodecStreams.Writer.Text` | src/effect_journal_codec.cpp:61-69 | Text is written as the text format encodes it. |
| `EffectCodecStreams.EncodeRecord` | src/effect_journal_codec.cpp:217-280 | The field-by-field writer produces exactly the specified encoding, or refuses exactly where it does. |
| `EffectCodecStreams.Reader.Number` | src/effect_journal_codec.cpp:98-111 | The byte loop reads what the number format decodes and moves past it. |
| `EffectCodecStreams.Reader.Text` | src/effect_journal_codec.cpp:119-129 | A text is read as the text format decodes it, and a short input is refused. |
| `EffectCodecStreams.Reader.FactList` | src/effect_journal_codec.cpp:171-177 | The counted loop reads what the list format decodes. |
| `EffectCodecStreams.DecodeRecord` | src/effect_journal_codec.cpp:282-397 | The field-by-field reader accepts exactly the bytes that the specified decoder accepts, with the same record. |
| `ProgressionUnits.ClaimMembers` | src/progression.cpp:70-88 | A target action claims exactly its phase members, keeps earlier claims, and fails only where no partition exists. |
| `ProgressionUnits.SortUnits` | src/progression.cpp:102-105 | The units are sorted by primary and none is lost or added. |
| `ProgressionUnits.CollectUnits` | src/progression.cpp:56-106 | Contraction succeeds if and only if the lifecycle nodes can be partitioned among target actions, and then gives a well-formed graph. |
| `ProgressionEvidence.UnitsExactly` | src/progression.cpp:56-106 | Builds and checks are units of their own, an install, upgrade or removal is one with exactly the nodes that its phase edges attach, and no other node has a unit. |
| `ProgressionEvidence.ApplyLifecycleResults` | src/progression.cpp:146-162 | The loop over a lifecycle list gives each listed step its own result, and blocks the steps that were not reached. |
| `ProgressionEvidence.SeedStatuses` | src/progression.cpp:164-220 | The loops over nodes, units and lifecycle lists write exactly the status that evidence and retention give to each node. |
| `ProgressionSweeps.DeriveUnit` | src/progression.cpp:233-251 | The edge scan finds a failed or blocked predecessor, else all satisfied, else pending. |
| `ProgressionSweeps.VisitUnit` | src/progression.cpp:226-261 | A visit that changes something leaves fewer pending nodes; one that does not leaves the unit stable. |
| `ProgressionSweeps.Sweep` | src/progression.cpp:223-262 | A sweep keeps the invariant, and either shrinks the pending nodes or finds every unit stable. |
| `ProgressionSweeps.DeriveStatuses` | src/progression.cpp:164-264 | The loop ends on every graph, cyclic or not, with the status that chains of edges define: blocked iff a chain of open units leads from a failed or blocked node, ready iff all external predecessors are satisfied, else pending. |
| `ProgressionSweeps.StatusIgnoresUnitOrder` | src/progression.cpp:222-263 | The statuses do not depend on the order of the units. |
| `ProgressionSweeps.ReadyExactly` | src/progression.cpp:233-251 | A unit is ready if and only if it is open and its external predecessors are satisfied. |
| `ProgressionSweeps.SettledExactly` | src/progression.cpp:181-220 | Satisfied and failed come from retention and evidence only. |
| `Dispatch.FirstSelectable` | src/dispatch.cpp:1341-1350 | The selection is a selectable unit, and none is only when no unit is selectable. |
| `Dispatch.SelectUnit` | src/dispatch.cpp:1341-1350 | The loop selects the first selectable unit. |
| `Dispatch.FindOverlap` | src/dispatch.cpp:579-594 | The nested scan finds an overlap if and only if an active dispatch shares a member. |
| `DispatchChecks.ValidateRecord` | src/dispatch.cpp:193-241 | The switch accepts exactly the evidence that a record of its state may carry. |
| `DispatchChecks.ValidateCurrent` | src/dispatch.cpp:403-420 | The check passes exactly when the unit is ready on the captured evidence and, for an operation, on the reserved epoch. |
| `DispatchChecks.ValidateHistory` | src/dispatch.cpp:323-390 | The loop accepts exactly the histories whose records stand on their captured evidence and whose completions agree with the evidence of the progression. |
| `DispatchChecks.ValidateRunRecords` | src/dispatch.cpp:243-321 | The validation accepts exactly the records with distinct nonces and dispatches, sound active records, no overlap, capacities kept and all active units ready. |
| `DispatchChecks.ScanRecords` | src/dispatch.cpp:248-287 | One pass with growing sets passes exactly when each record does against all earlier ones, and collects the active ones in order. |
| `DispatchChecks.ActiveOverlap` | src/dispatch.cpp:289-298 | The double loop finds an overlap if and only if two active dispatches share a member. |
| `DispatchChecks.WithinCapacities` | src/dispatch.cpp:300-312 | The three counts keep the capacities exactly as specified. |
| `DispatchChecks.StillReady` | src/dispatch.cpp:314-320 | The last loop passes exactly when every active unit is a ready unit of the progress. |
| `DispatchChecks.RequireInputEdge` | src/dispatch.cpp:700-725 | An edge is found if and only if it is the only one for the demand. |
| `DispatchChecks.ValidateConstructionInputs` | src/dispatch.cpp:794-839 | Accepted exactly when inputs and input edges of the node are matched one to one and each predecessor stands for its input: selected, and built with evidence that the dispatch holds, or retained and still installed. |
| `DispatchChecks.EvidenceIsHeld` | src/dispatch.cpp:741-765 | In a sound run the evidence half of that check never fails: a build predecessor of an active dispatch has succeeded, and the dispatch holds that very evidence. |
| `DispatchChecks.OmittedIsRefused` | src/dispatch.cpp:828-838 | A build edge that no input uses is refused. |
| `DispatchLaws.CaptureSucceeds` | src/dispatch.cpp:538-567 | Capturing dependencies succeeds if and only if all external predecessors are satisfied. |
| `DispatchLaws.CaptureStays` | src/dispatch.cpp:538-567 | Completing another unit changes neither a unit's satisfied predecessors nor its captured dependencies. |
| `DispatchLaws.OtherRecordStays` | src/dispatch.cpp:1436-1552 | Completing one dispatch leaves every other record as sound as it was. |
| `DispatchLaws.LaneIsSingle` | src/dispatch.cpp:1032-1035 | At most one operation dispatch is active. |
| `DispatchLaws.SoundIsValid` | src/dispatch.cpp:243-321 | A sound run passes the validation of its records. |
| `DispatchLaws.SoundIsRestored` | src/dispatch.cpp:1260-1273 | A sound run is restored from its records as it is. |
| `DispatchLaws.ReserveNextKeeps` | src/dispatch.cpp:1330-1366 | Reservation fails if and only if the nonce was used, and keeps the run sound. |
| `DispatchLaws.StartWorkKeeps` | src/dispatch.cpp:1368-1398 | Starting a construction or check keeps the run sound and never finds it invalid. |
| `DispatchLaws.StartOperationKeeps` | src/dispatch.cpp:1400-1422 | Starting an operation keeps the run sound and never finds it invalid. |
| `DispatchLaws.ReleaseKeeps` | src/dispatch.cpp:1424-1434 | Release succeeds if and only if the dispatch is reserved, and keeps the run sound. |
| `DispatchLaws.CompleteWorkKeeps` | src/dispatch.cpp:1436-1505 | Completing a construction or check keeps the run sound and never finds it invalid. |
| `DispatchLaws.SubmitOperationKeeps` | src/dispatch.cpp:1507-1552 | Submitting an operation result, terminal or not, keeps the run sound and never finds it invalid. |
| `DispatchLaws.CommandKeeps` | src/dispatch.cpp:1330-1552 | So does every command. |
| `DispatchLaws.BeginIsSound` | src/dispatch.cpp:1275-1281 | A run begins sound. |
| `DispatchLaws.LedgerSoundness` | src/dispatch.cpp:1260-1552 | In every history of a run no command ends with an invalid run, and the run restores as it is. |
| `DispatchOutcomes.ReserveExactly` | src/dispatch.cpp:1330-1366 | The first unit in order is reserved that has no evidence and only satisfied predecessors, whose own kind is below its own field of the policy, and that shares no member with an active dispatch; the run is left alone only if there is none. |
| `DispatchOutcomes.CapacitiesHold` | src/dispatch.cpp:143-158 | In every history the active constructions stay within the construction field of the policy, the active checks within the check field, and there is at most one active operation. |
| `DispatchOutcomes.DependenciesExactly` | src/dispatch.cpp:538-567 | A reservation names exactly the predecessors that are not retained, each with the evidence of its unit. |
| `DispatchOutcomes.StartWorkExactly` | src/dispatch.cpp:1368-1398 | On a sound run a construction or check starts if and only if nothing has failed and the session is for the unit; the new record is the one written out. |
| `DispatchOutcomes.StartOperationExactly` | src/dispatch.cpp:1400-1422 | The same for an operation, whose record names the effect attempt admitted with it. |
| `DispatchOutcomes.ReleaseExactly` | src/dispatch.cpp:1424-1434 | A reserved dispatch is released, and nothing else changes. |
| `DispatchOutcomes.CompleteWorkExactly` | src/dispatch.cpp:1436-1505 | A work result is accepted if and only if it is of the started session; it becomes the evidence of the unit, with its own identity and success. |
| `DispatchOutcomes.SubmitExactly` | src/dispatch.cpp:1507-1552 | An operation result is accepted if and only if it is of the started session and is either conclusive with the state that goes with it or a new inconclusive observation. A conclusive one becomes the evidence: success exactly for the completed outcome, with its identity, session, lifecycle lists and results; only a completed one moves the epoch. |
| `DispatchOutcomes.MisplacedIsRefused` | src/dispatch.cpp:660-672 | A command on a dispatch that the ledger does not hold, or not in the needed state, is refused. |
| `DispatchOutcomes.ReportedFailureStops` | src/progression.cpp:195-218 | An accepted report of a failure, also of an operation with any of its four failed outcomes, keeps the epoch, makes its node failed and stops the run. |
| `DispatchSchedule.NodeStartsOnce` | src/dispatch.cpp:1330-1422 | In every history a node belongs to at most one started or completed dispatch. |
| `DispatchSchedule.StartsFollowPredecessors` | src/dispatch.cpp:403-420 | Whatever started had each external predecessor retained or in a successfully completed dispatch. |
| `DispatchSchedule.PredecessorCompleted` | src/dispatch.cpp:538-567 | The same of any sound run whose evidence is explained by its records. |
| `DispatchSchedule.NothingStartsAfterFailure` | src/dispatch.cpp:396-401 | Once a unit has failed under stop-after-failure, no history reserves or starts anything. |
| `DispatchSchedule.ActiveStaysCurrent` | src/dispatch.cpp:403-420 | An active dispatch that a command does not change stays ready, on the same evidence and epoch. |
| `DispatchReports.StartsAreEarned` | src/dispatch.cpp:403-420 | In every history: before a start is accepted, a result that reports success was accepted for the unit of every predecessor that is not retained. |
| `DispatchReports.FailureEndsStarts` | src/dispatch.cpp:396-401 | Once a result that reports a failure was accepted, every later start is refused and every later reservation selects nothing. |
| `DispatchReports.StartsAreDisjoint` | src/dispatch.cpp:1330-1422 | Any two accepted starts of a history are of units without a common node. |
| `RunJournalLaws.TransitionCounts` | src/run_journal.cpp:218-241 | A legal transition adds exactly one to the count that the sequence must equal. |
| `RunJournalLaws.CommandTransits` | src/run_journal.cpp:360-406 | A command that is not refused makes one legal transition, or selects nothing. |
| `RunJournalLaws.CommandExtendsJournal` | src/run_journal.cpp:443-486 | Every effective command yields a successor snapshot that the store's check accepts, with the next sequence. |
| `RunJournalLaws.EpochMovesWithOperation` | src/run_journal.cpp:474-485 | The state epoch moves only where an operation dispatch becomes completed. |
| `RunJournalLaws.SnapshotReopens` | src/run_journal.cpp:733-750 | A sound snapshot reopens to its own run. |
| `RunJournalLaws.SnapshotIsAccepted` | src/run_journal.cpp:243-292 | A snapshot of a sound run has a valid shape if and only if its counts are within the bounds. |
| `RunJournalChecks.ValidateBounds` | src/run_journal.cpp:128-216 | The loops accept exactly the histories within 65536 dispatches, members, dependencies and observations, without repetition, overlap or excess over the policy. |
| `RunJournalChecks.ValidateShape` | src/run_journal.cpp:243-292 | The checks of a snapshot that is read back accept exactly the specified shapes. |
| `RunJournalChecks.ValidateDurableSuccessor` | src/run_journal.cpp:443-486 | The store accepts exactly the specified successors; the loop finds the one record that changed, or refuses. |
| `RunJournalChecks.ReopenSnapshot` | src/run_journal.cpp:733-760 | Reopening compares the progression, restores the run and compares once more, as specified. |
| `RunJournalChecks.JournalOnlyAdds` | src/run_journal.cpp:302-486 | Along every chain that the store admits, whoever wrote it: no record disappears, changes its dispatch or forgets a session, attempt or observation, completed and released records stay as they are, policy and graph are fixed, and the epoch moves only with an operation that completes. |
| `RunnerLaws.HeadStep` | src/run_commit.cpp:48-58 | A command whose attempt is durable commits as a sound successor head with the next sequence. |
| `RunnerSteps.AdvanceIsGood` | src/run_advance.cpp:526-582 | Every step from a sound disk writes soundly at each point and returns a result that its own check accepts. |
| `RunnerSteps.CrashKeepsSound` | src/run_advance.cpp:526-582 | After any prefix of the writes of a step the disk is sound. |
| `RunnerSteps.SequenceCountsHeads` | src/run_journal.cpp:615-635 | The sequence grows by one with every head, and the journal, graph and policy stay. |
| `RunnerSteps.SubmitRetires` | src/dispatch.cpp:1507-1552 | A terminal result retires the dispatch; any other is retained as its observation. |
| `RunnerDrive.IdleStep` | src/run_advance.cpp:546-574 | From an idle run that has not stopped a step is quiescent exactly when nothing is ready, and otherwise moves the head. |
| `RunnerDrive.DriveIsFair` | src/run_drive.cpp:71-102 | For any answers, the check accepts the result of a drive if and only if it is not a stall after a first step. |
| `RunnerOutcomes.DriveEndsExactly` | src/run_drive.cpp:46-63 | Each answer of a drive if and only if its last step is as listed: no authority; a blocked operation or one started with this result as observation; every node satisfied; some node failed; nothing to do; or none of these after all steps. No earlier step was of a kind that ends a drive. |
| `RunnerOutcomes.QuiescentExactly` | src/run_advance.cpp:546-574 | A step is quiescent if and only if nothing is reserved or started and either a node has failed or no unit waits with satisfied predecessors. |
| `RunnerProgress.SomethingIsReady` | src/progression.cpp:233-251 | Over an acyclic graph an incomplete run that has not stopped has a ready unit. |
| `RunnerProgress.CompleteMeansClosed` | src/progression.cpp:506-543 | Without a failure a progress is complete if and only if no unit is open. |
| `RunnerProgress.RankedDriveDoesNotStall` | src/run_drive.cpp:194-221 | A drive over an acyclic graph never ends quiescent and incomplete. |
| `RunnerProgress.DriveIsNeverRejected` | src/run_drive.cpp:71-102 | So over an acyclic graph the check never rejects the result of a drive, whatever the drivers answer. |
| `RunnerStorage.SeriesKeepsSound` | src/run_store.cpp:720-788 | However often steps are killed, between writes or inside the append of a head, and whatever a power loss takes back: the live and the durable head are sound, with at most one active dispatch, and at most one transition apart. |
| `RunnerStorage.AdmissionPrecedesStart` | src/run_commit.cpp:60-89 | At every point of every such series a started operation names an effect attempt that is already admitted. |
| `RunnerStorage.RestartedDriveIsNeverRejected` | src/run_drive.cpp:71-102 | From every head that such a series leaves of a fresh run over an acyclic graph, the result of a drive is never rejected. |
| `RunnerStorage.RecoveryIsBackedExactly` | src/run_advance.cpp:241-356 | The durable head knows a recovered dispatch as started, unless the head is not durable and the dispatch has no observation yet. |
| `RunnerStorage.StartsAreDurableExactly` | src/run_execute.cpp:104-228 | Every effect of a dispatch is performed while its start is durable if and only if no step of the series recovers a start that is live and not durable. |
| `RunnerStorage.NodeHasOneAttempt` | src/run_execute.cpp:173-228 | In such a series, kills and power losses included, all effects of a node are those of one dispatch. |
| `RunnerLostStart.LostStartRunsTwice` | src/run_advance.cpp:241-356 | A reached series, whatever the hash: the start of an operation is recovered while it is not durable, a power loss takes it back, and a second dispatch of the same node performs the effects again. |
| `RunnerLiveness.StepServesUnit` | src/run_advance.cpp:444-524 | With cooperating drivers a step from an idle run completes one unit successfully and leaves the run idle. |
| `RunnerLiveness.FreshDriveCompletes` | src/run_drive.cpp:194-221 | A fresh run of N units over an acyclic graph, with cooperating drivers and a bound of at least max(1, N), ends completed after max(1, N) steps. |
| `RunnerRecovery.StepOverActive` | src/run_advance.cpp:241-356 | From any sound head, with any number of active dispatches, a step that lets the drive go on retires the first of them and nothing else; one that leaves the head alone reports on a started operation. |
| `RunnerRecovery.ManyIsFair` | src/run_drive.cpp:71-102 | With any number of active dispatches and no started operation behind another one, the check accepts a result if and only if it is not a stall after a first step. |
| `RunnerRecovery.AcyclicDriveDoesNotStall` | src/run_drive.cpp:194-221 | Without a cycle among the open units no drive stalls, whatever the answers. |
| `RunnerAnswers.HelpRetires` | src/run_advance.cpp:241-356 | Every active dispatch of a sound head can be retired in one step: there are answers that release, complete or recover it. |
| `RunnerLimits.SafeIsValid` | src/run_drive.cpp:71-102 | From a head that meets the condition below every drive that ends has a valid result. |
| `RunnerLimits.NeverRejectedExactly` | src/run_drive.cpp:71-102 | From a sound head the check never refuses a drive's own result, whatever bound and answers, if and only if the run has stopped, or no started operation waits behind another active dispatch and either nothing is active or ready or the open units have no cycle. |
| `RunnerLimits.RunnerHeadExactly` | src/run_drive.cpp:71-102 | The same for the heads that the runner leaves: stopped, or nothing active or ready, or no open cycle. |
| `RunnerWitnesses.CyclicDriveIsRejected` | src/run_drive.cpp:98-100 | A fresh run over two units that require each other and a free one can be driven into a refused result. |
| `RunnerWitnesses.TwoActiveDriveIsRejected` | src/run_drive.cpp:98-100 | So can a head that three ledger commands reach: a started operation behind a reservation. |
| `RunnerController.RunController.FinishResult` | src/run_reconcile.cpp:107-146 | A result is retained, then its completion committed, up to the append before which the process dies. |
| `RunnerController.RunController.ReconcileFirst` | src/run_advance.cpp:241-356 | Recovery of an active dispatch goes through its plan up to the append before which the process dies, and leaves a sound disk there. |
| `RunnerController.RunController.ExecuteWorkDispatch` | src/run_execute.cpp:104-171 | Attempt, start and result are appended in this order, and wherever the process dies the disk is sound: no started dispatch lacks its retained attempt. |
| `RunnerController.RunController.ExecuteOperationDispatch` | src/run_execute.cpp:173-228 | Admission, start and result are appended in this order, and wherever the process dies the disk is sound: no started operation lacks its admitted effect attempt. |
| `RunnerController.RunController.ExecuteReservation` | src/run_advance.cpp:444-524 | A reservation is executed by kind, or released when mutation authority is unavailable, with a sound disk wherever the process dies. |
| `RunnerController.RunController.AdvanceOnce` | src/run_advance.cpp:526-582 | One step goes through exactly the checked plan, and wherever the process dies the disk is sound. |
| `RunnerController.RunController.DriveRun` | src/run_drive.cpp:194-221 | The loop returns what the drive is, unless the process dies on the way, and always leaves a sound disk. |
| `RunnerController.ValidateAdvanceResult` | src/run_advance.cpp:358-442 | The checks of a step that is returned accept exactly the specified results. |
| `RunnerController.ValidateDriveResult` | src/run_drive.cpp:71-102 | The checks of the bound and the answer and the loop over the steps accept exactly the specified results. |
| `LifecycleOrder.CollectMembers` | cli/run_command.cpp:1388-1411 | The members are exactly those of the phase edges of the side, and it fails if and only if one is not a lifecycle node. |
| `LifecycleOrder.CollectArcs` | cli/run_command.cpp:1413-1427 | The arcs are exactly the requirement edges between members, each counted once. |
| `LifecycleOrder.ReleaseSuccessors` | cli/run_command.cpp:1439-1441 | Placing a node keeps indegrees and the ready set exact. |
| `LifecycleOrder.GreedyIsTopological` | cli/run_command.cpp:1434-1442 | Taking the least eligible member each time respects every requirement. |
| `LifecycleOrder.GreedyIsLeast` | cli/run_command.cpp:1434-1442 | The order it gives is lexicographically least among all that respect the requirements. |
| `LifecycleOrder.StuckIsCyclic` | cli/run_command.cpp:1443-1444 | Where members remain and none is eligible, the requirements contain a cycle. |
| `LifecycleOrder.OrderedIsAcyclic` | cli/run_command.cpp:1443-1444 | Where an order of all members exists, no cycle does. |
| `LifecycleOrder.LifecycleSide` | cli/run_command.cpp:1382-1446 | The result is the least topological order; it fails exactly for a foreign phase member or a cycle. |
| `LifecycleOrder.SideIsAcceptedIff` | src/effect.cpp:242-283 | An order of a side passes the comparison with the required list if and only if no phase edge is duplicated. |
| `LifecycleOrder.DuplicatedEdgeIsRefused` | src/effect.cpp:268-283 | A witness: with one phase edge stated twice the only order of the side is refused. |
| `LifecycleOrder.AcceptedOrderBindsUnit` | src/effect.cpp:268-283 | Accepted orders list exactly the unit's members besides its primary. |
| `RuntimeClosure.ScanIssuer` | cli/run_command.cpp:1502-1511 | Scanning one issuer adds only justified members and witnesses, and all of that issuer's. |
| `RuntimeClosure.RuntimeClosureFor` | cli/run_command.cpp:1485-1512 | The worklist ends; members are exactly the selections reachable by run-scope edges of the environment, witnesses exactly those edges issued inside. |
| `RuntimeClosure.ClosureIgnoresEdgeOrder` | cli/run_command.cpp:1497-1512 | Permuting or repeating the edges changes neither. |
| `Construction.CompareComponents` | src/construction.cpp:38-47 | The two iterators decide whether the parent's components begin the child's. |
| `Construction.PathsOverlap` | src/construction.cpp:49-54 | Overlap is containment either way. |
| `Construction.DisjointShareExactly` | src/construction.cpp:38-65 | Two normal coordinates that pass share a path if and only if one that ends in a separator is above the other. |
| `Construction.TrailingSeparatorHidesOverlap` | src/construction.cpp:38-65 | A witness: "/a/" and "/a/b" pass although one is below the other. |
| `Construction.FixedAreDisjoint` | src/construction.cpp:98-125 | The listed comparisons are exactly all pairs of the fixed coordinates. |
| `Construction.NormalizeInputs` | src/construction.cpp:127-147 | Inputs are accepted if and only if they normalise and are disjoint from the fixed coordinates and each other. |
| `Construction.NormalizeSessionCoordinates` | src/construction.cpp:67-147 | Accepted if and only if all coordinates normalise and are pairwise disjoint and the artifact has a name; the results are the normal forms in order. |
| `Construction.AdmittedShareExactly` | src/construction.cpp:98-147 | Any two admitted coordinates share a path if and only if one that ends in a separator is above the other. |
| `PathNormalForm.NormalFormIsCoordinate` | src/construction.cpp:24-36 | However an absolute path is rewritten by the rules of lexical normal form until no rule applies, what is left is its coordinate; a path that is rewritten to the root has none. |
| `PathNormalForm.RewritesUnlessIrreducible` | src/construction.cpp:31 | The rules stop applying exactly at plain names, with perhaps a separator at the end. |
| `PathNormalForm.NormalFormExists` | src/construction.cpp:24-36 | Every path can be rewritten to such an end. |
| `Construction.NormalizeGroups` | src/construction.cpp:149-173 | Accepted if and only if credentials are in range and groups are distinct and without the primary one; the result is the sorted permutation. |
| `Construction.ValidateInputResources` | src/construction.cpp:191-220 | Accepted if and only if supplied and expected inputs are the same multiset without repetition. |

## Left out

- Physical effects, descriptors, locks, permissions, symbolic links, allocation failure and threads. Canonical state is one cell that a publication compares and sets.
- SHA-256: an arbitrary function. Where identities are compared, only the two streams at hand must not collide.
- Identities of sessions, requests, evidence, runs, dispatches and progress outside the effect journal: they are the values themselves or opaque strings, and the equality checks on them are folded into one comparison each.
- Typed identities: assumed to be written as "v1:sha256:" and 64 lower-case hexadecimal digits. The outcome enumerations of the libraries are numbered in the order in which they are reported.
- Two executors of one attempt without the lease: processes of one attempt follow each other, as an exclusive lease makes them. Publications that move a state other than the expected one, and operations whose result equals the state they start from, are excluded by assumption where the moves of canonical state are counted (EffectSafety.StateMovesAtMostOnce), and nowhere else.
- Lifecycle results and application receipts beyond the journaled fields; the bodies that a restart checkpoint carries for them equal the journal's facts, as its constructor demands.
- The bytes inside a head file (`encode_head`, `decode_head`): a head is the attempt, sequence and identity it names.
- EffectExecutor.Controller.ExecuteDurable: inside an action the controller is killed only between the rename of a head and its last sync; a kill at any other call leaves the heads of an append not begun or finished, up to a write-back, by EffectHeads.StoreMovesHeads.
- EffectStorage: a body that was retained is durable; the body store's own files are not modelled.
- RunnerStorage.NodeHasOneAttempt: evidence and admitted attempts are durable when their write returns, and a step that is killed right before it calls a driver counts as having called it. The other direction is per call, in RunnerStorage.StartsAreDurableExactly; that a second attempt really follows is the witness RunnerLostStart.LostStartRunsTwice.
- The drivers, authorities and leases of one runner step are one value of answers, among which a missing answer is an exception; the retention of bodies for recovered results is not modelled.
- RunnerLimits.NeverRejectedExactly: the direction that exhibits a refused drive assumes what a made policy has, positive capacities, and room for the drive in the sequence numbers and in the journal's bound on unit members; the other direction, RunnerLimits.SafeIsValid, does not.
- EffectStore.Store.Append: the bytes of a partly written temporary file are one torn content, and an error path's removal of temporary files is a step of its own in the series.
- RunnerLiveness.FreshDriveCompletes: cooperating drivers, positive capacities and a run of at most a third of the 64-bit sequence numbers are assumed, since the sequence is exhausted otherwise.
- Construction: the source materialisation seal and the compression kind are two given booleans; normalisation of a path is over its components, as lexical normalisation defines it.
- The other codecs, the cleanup of run directories, inspection, the resolver, planner, controller requests, command-line parsing and reports: glue over libraries, or easier repetitions of what is here.
