# The mandate protocol, its evidence feed and its sessions

Piteka turns an approved request into one deployment. The approval (the mandate) may be used once: a
dispatch reserves it with a compare-and-swap on its version, journals an execution attempt, calls the
provider, and records the outcome. A doubtful outcome puts the mandate in quarantine, from which
`reconcile` or `abandon_unresolved` takes it. A webhook later turns the provider's status into a receipt
with evidence, and an evidence feed publishes the receipts. All of this is built from atomic calls on
stores that many callers share, and every call may be the last one a process makes.

## How the model is laid out

- **Programs.** `DispatchProgram`, `ResolveProgram`, `DeliverProgram` and `DecideProgram` write each
  operation as a program that awaits one call at a time. `Stores.Perform` is what one awaited call does:
  one mutex section, one SQL statement, or one request to the provider.
- **Runs.** `Machine` interleaves any number of operations over the shared stores. A run is any list of
  steps: issue a mandate, start an operation with any arguments, let one operation make one move. An
  operation that crashes, or whose store call fails in the backend, makes no further move, so crashes and
  storage errors at every `.await` are part of every theorem. There is no bound on operations or steps.
- **Two hypotheses.** `AnyVersion`, `Growth`, `Correlation`, `Authorship`, `Arrivals` and most of `Evidence`,
  `Attestation`, `Answers`, `AuditTrail` and `Listings` assume nothing about the versions callers pass. `NoLookahead`, `MandateLife`, `Approvals`, `Authority`, most of `Replay`, and
  the rest of those five assume `PoliteRun`: a dispatch expects version 1, and every other swap expects a version no
  newer than the one stored when its operation read. The hypothesis is needed, because the swap compares versions and
  never states. `Lookahead` has runs with lookahead that reopen a consumed mandate, take a reserved one from its holder,
  approve a rejected request, and abandon a consumed mandate that then has two receipts;
  `Growth.RecordStaysIffNotSwapped` says for every run exactly when a record stays. `Scenarios` has the pieces such runs
  are put together from.
- **What records say.** The predicates `IsAttemptOf`, `IsDecisionOf`, `PaperTrail` and `IsAbandonmentOf` state a record
  field by field against the call that made it. `Authorship` proves them of every record of every run, `AuditTrail` the
  same of every event, and `Listings` what the group lookups then list.
- **Imperative layer.** `MemoryStores` and `Ports` are the in-memory adapters as classes; `DispatchUseCase`,
  `ResolveUseCase`, `DecideUseCase` and `DeliverUseCase` are the use cases as methods over them. Each method is
  proved to be a run of its program (`Runs.Leads`), so what holds of all runs holds of them. `Postgres` covers
  the two-statement operations of the SQL adapters, `PostgresRuns` whole runs over them, and `PostgresSafety` the
  invariants of all these runs, whatever the second statement finds.
- **Feed.** `Feed` has manifests, exports and the emission clock, `FeedPaging` the cursor and a client that
  follows it, `FeedRuns` such a client over one run, `FeedPermanence` what never changes once published, `LateArrival` a run in which a number does.
  `FeedBytes` is the signing preimage.
- **Dates.** `CivilDate` and `Rfc3339` are `format_timestamp`, against a calendar counted out year by year and
  the grammar of section 5.6 of RFC 3339.
- **Sessions.** `Bytes`, `SessionBytes` and `Sessions` are the session encoding, the directory, and the authority.

SHA-256, JSON encoding, signatures, clocks and the provider's answers are parameters. Two things are assumed about them:
in the session theorems that a signer verifies nothing it did not sign, and in two concrete runs that the hash gives
the four evidence texts of these runs different digests (`Scenarios.KeepsApart`). Identifiers are
character sequences, so the prefix arguments (`att-`, `rcpt-`, `rcpt-abandoned-`, `dec-`, `ev-`) are proved.

`dafny verify dfyconfig.toml` checks the whole project.

## Where the code and its documentation differ

- The documentation of the dispatch use case (crates/piteka-application/src/dispatch.rs:24-25) says that the mandate
  becomes quarantined the moment the provider call completes, success or failure. In every run without lookahead it is
  reserved at that moment, and then goes to consumed if the provider gave a deployment id and to quarantined if not
  (`Replay.OutcomeFollowsAnswer`, `Replay.StateTellsAnswer`). No receipt is recorded there.
- The same documentation (crates/piteka-application/src/dispatch.rs:266-268) says that a second dispatch of a used
  mandate fails with `AlreadyConsumed`. Without lookahead no dispatch ever gets that error
  (`MandateLife.CompletionNeverConflicts`). A dispatch that has not reserved when its mandate is consumed, quarantined
  or abandoned never does, and it ends in `ReplayRejected` if and only if it found its request approved, with the denial
  in the audit log (`Replay.SecondDispatchIsRefused`); otherwise in `RequestNotFound` or `NotApproved`, for instance
  after a revocation. While the mandate is still reserved a lost reservation is answered with `ReservationFailed`
  (`Replay.InspectionDecides`). With any versions, a dispatch gets `AlreadyConsumed` if and only if somebody swapped the
  mandate between its reservation and its completing swap (`Lookahead.AlreadyConsumedIffSwapped`), which happens
  (`Lookahead.LookaheadGetsAlreadyConsumed`).
- "Cannot be dispatched again" holds of the provider call for all versions (`AtMostOneProviderCall`), and of the
  stored state only without lookahead (`FinalForever`, `LookaheadReopensConsumed`). In general a record stays if and
  only if nobody swaps it with the version it has (`RecordStaysIffNotSwapped`).
- A comment of the feed says that sequence numbers are stable as new receipts append at the end. New receipts
  do not always sort at the end: the list is ordered by creation time, which is read before the receipt is stored.
  `ExportsStayIffAppended` says exactly when earlier exports keep number, time and payload, and
  `LateArrival.LateArrivalRenumbers` is a run without lookahead in which a receipt loses its number, and
  `LateArrival.ClientMissesLateArrival` a client that gets it twice and another never.
- A comment in `signing_bytes` says that distinct claims never collide. They do once a text reaches 2^32 bytes
  (`LongTextsCollide`); `SigningBytesInjective` needs the bound on one side only.
- The Postgres swap can report a conflict with the very version that was expected (`PgOddAnswer`), which the
  in-memory swap never does. It does no harm to the invariants (`PostgresSafety`).
- `issue` documents that the issued window is never empty; at the last second of `u64` it is, and the call
  panics (`IssuePanicsOnlyAtTheEnd`).

## Model

| member | source | states |
|---|---|---|
| `Growth.RunGrows` | crates/piteka-storage/src/memory.rs:99-119 | from any moment of any run to any later one: versions never go down, a record at an unchanged version is unchanged, insert-once records and log entries stay as they are, attempts change only state and deployment id |
| `Growth.OneWinnerPerVersion` | crates/piteka-storage/src/memory.rs:99-119 | each version of a mandate is swapped away at most once in a whole run |
| `Growth.RecordStaysIffNotSwapped` | crates/piteka-storage/src/memory.rs:99-119 | in any run, with any versions, a mandate's record at a moment is its record at the end if and only if no later step swaps it with the version it then has; its state does not protect it |
| `Authorship.EveryRecordHasOneAuthor` | crates/piteka-storage/src/memory.rs:294-308 | in every run, with any versions and crashes: every request, decision, attempt, receipt and delivery in store was written by exactly one operation, and says field by field what that operation was called with |
| `Authorship.OneAuthorAlways` | crates/piteka-storage/src/memory.rs:294-308 | at every moment of every run the places in the insert-once stores are shared out among the operations, one author each |
| `AuditTrail.EveryActIsLogged` | crates/piteka-application/src/dispatch.rs:382-395 | in every run a journaled reservation, an accepted dispatch, a rejected replay, a closed resolution, a decision, a proposal, a deferral and a receipt are in the audit log, with their own actor, act, decision and subject |
| `AuditTrail.EveryEventHasActor` | crates/piteka-application/src/dispatch.rs:382-395 | in every run every event in the log was written by a move of one operation, and names that operation's actor, act, decision and subject |
| `AuditTrail.FailureIsLogged` | crates/piteka-application/src/dispatch.rs:553-575 | without lookahead a failed dispatch has logged the quarantine |
| `AnyVersion.AtMostOneProviderCall` | crates/piteka-application/src/dispatch.rs:644-668 | in every run, with any expected versions and any crashes, the provider is called at most once for a mandate |
| `AnyVersion.CallHasMove` | crates/piteka-application/src/dispatch.rs:359-399 | every entry of the provider's record was appended by one dispatch's own move at the provider call, with that dispatch's own data |
| `AnyVersion.ProviderCallHistory` | crates/piteka-application/src/dispatch.rs:335-399 | a move at the provider call is preceded, in its caller's own order, by a moment with the request approved, its own winning swap, its own insertion of a fresh attempt, and its own audit event |
| `AnyVersion.RecordedCallHistory` | crates/piteka-application/src/dispatch.rs:335-399 | so every call in the provider's record has that whole history |
| `Correlation.CallsMatchJournal` | crates/piteka-application/src/dispatch.rs:359-373 | in every run each provider call carries the correlation key and the digest of the stored attempt it was made for |
| `Correlation.OwnsAlways` | crates/piteka-application/src/dispatch.rs:359-399 | between its insertion and the provider's answer, the stored attempt repeats the operation's mandate, intent, token digest, executor, correlation key and time, whatever others do |
| `Correlation.AttemptHasDispatch` | crates/piteka-application/src/dispatch.rs:350-373 | in every run every attempt in the journal was inserted by one dispatch that had won its reservation before, and repeats to the end what that dispatch was called with |
| `AnyVersion.ResolutionIsGuarded` | crates/piteka-application/src/reconciliation.rs:329-395 | read, check and swap act as one guarded step: a resolution that expects a version no newer than it read swaps if and only if the record is still the quarantined one it read |
| `AnyVersion.DecisionIsGuarded` | crates/piteka-application/src/action_request.rs:222-245 | the same for approve, reject and revoke: the swap applies only while the status is the one that was checked |
| `AnyVersion.DeliveryProcessedOnce` | crates/piteka-application/src/webhook_ingestion.rs:195-228 | in every interleaving of the get and the record, one request at most per delivery id goes on to processing |
| `Arrivals.ArrivalIsJudged` | crates/piteka-application/src/webhook_ingestion.rs:232-262 | in every run a request is flagged, and logged, as out of order if and only if some arrival before its own, for the same deployment, had a later provider time |
| `Arrivals.LatestIsFed` | crates/piteka-application/src/webhook_ingestion.rs:82-98 | in every run the stored times are what all arrivals so far leave |
| `NoLookahead.JointAlways` | crates/piteka-application/src/dispatch.rs:349-592 | the joint invariant of mandate, attempt, provider call, abandonment receipt and operations in flight holds in every world of a run without lookahead |
| `MandateLife.MandatePath` | crates/piteka-application/src/dispatch.rs:349-592 | every step takes a mandate along issued 1, reserved 2, consumed or quarantined 3, then consumed or abandoned 4, or leaves it alone |
| `MandateLife.FinalForever` | crates/piteka-application/src/dispatch.rs:659-711 | consumed and abandoned records never change again without lookahead |
| `MandateLife.FinalRecords` | crates/piteka-application/src/reconciliation.rs:390-516 | a final mandate is consumed at 3, consumed at 4 or abandoned at 4 |
| `MandateLife.ReservedHasOneHolder` | crates/piteka-application/src/dispatch.rs:349-379 | a reserved mandate belongs to exactly one dispatch still in flight, perhaps crashed |
| `MandateLife.CompletionNeverConflicts` | crates/piteka-application/src/dispatch.rs:490-592 | the conflict, missing and lost-attempt arms of the completion are unreachable from `reserve_and_dispatch` |
| `MandateLife.StateTellsOutcome` | crates/piteka-application/src/reconciliation.rs:336-410 | what the stored state says about attempt, deployment id and provider call; quarantined and abandoned attempts hold no deployment id |
| `MandateLife.DeploymentForever` | crates/piteka-application/src/reconciliation.rs:403-410 | without lookahead a deployment id in the journal is never changed |
| `Answers.StoredIdWasTold` | crates/piteka-application/src/reconciliation.rs:366-410 | in every run, with any versions: a deployment id in the journal is one the provider gave when it was called for that attempt or asked about it |
| `Answers.ConsumedWasTold` | crates/piteka-application/src/reconciliation.rs:366-395 | in every run, with any versions: a mandate is consumed only on a deployment id the provider gave for it |
| `Answers.CarriedWasTold` | crates/piteka-application/src/dispatch.rs:671-684 | whoever acts on a deployment id was told it by the provider in an earlier move of its own |
| `Answers.SwapFollowsAnswer` | crates/piteka-application/src/reconciliation.rs:366-395 | a reconciliation reaches its swap only after its own question was answered with that deployment id |
| `Answers.ReadEndsIt` | crates/piteka-application/src/reconciliation.rs:329-345 | in every run a resolution that finds its mandate missing, or not in quarantine, ends there with the answer that names what it found; a reconciliation tells the terminal states apart |
| `Answers.TerminalAnswerIsFinal` | crates/piteka-application/src/reconciliation.rs:329-345 | without lookahead a reconciliation that finds its mandate consumed or abandoned answers with the state it has for good |
| `Answers.ReconciledOnAnswer` | crates/piteka-application/src/reconciliation.rs:366-410 | without lookahead a mandate consumed at version 4 was taken out of quarantine by one reconciliation whose question was answered, and its attempt has that deployment id unless that reconciliation is just about to write it |
| `Evidence.EvidenceAlways` | crates/piteka-application/src/receipt_production.rs:343-399 | with any versions: every receipt repeats its attempt's mandate and intent, and is an abandonment receipt, or a webhook receipt whose attempt holds a deployment id and whose stored evidence is one claim of Piteka's and one observation of the provider's |
| `Attestation.OutcomeIsAttested` | crates/piteka-application/src/receipt_production.rs:343-399 | in every run a receipt with a definite outcome was written by exactly one webhook request, from a delivery on record with its digest; receipt, observation and claim are, field by field, those of that event and of an attempt that held the event's deployment when looked up |
| `DeliverProgram.NodesAreLabelled` | crates/piteka-application/src/receipt_production.rs:180-290 | every field of observation, claim and gap, among them the provider's time as `i64` up to a multiple of 2^64 |
| `Attestation.ReceiptKeepsDeployment` | crates/piteka-application/src/receipt_production.rs:343-399 | without lookahead the attempt holds that deployment at every later moment |
| `Evidence.UnknownIsAbandonment` | crates/piteka-application/src/reconciliation.rs:498-516 | the receipts with unknown outcome are exactly the abandonment receipts |
| `Evidence.FirstTerminalStatusIsFinal` | crates/piteka-application/src/receipt_production.rs:380-399 | once an attempt has a receipt with a definite outcome, no later event adds or changes one |
| `Evidence.AtMostOneReceipt` | crates/piteka-application/src/reconciliation.rs:398-410 | without lookahead a mandate has at most one receipt |
| `Evidence.AbandonedHasNoOutcome` | crates/piteka-application/src/reconciliation.rs:398-410 | without lookahead an abandoned mandate's only possible receipt is the abandonment's, even if that one was never stored |
| `Listings.DecisionsOfRequest` | crates/piteka-storage/src/memory.rs:384-397 | in every run `by_request` lists the request's one decision, if it has one |
| `Listings.AttemptsOfMandate` | crates/piteka-storage/src/memory.rs:469-482 | in every run `by_mandate` lists the mandate's one attempt, if it has one |
| `Listings.ReceiptsOfMandate` | crates/piteka-storage/src/memory.rs:535-548 | without lookahead `by_mandate` lists the mandate's one receipt, of either kind |
| `Records.ReceiptIdsApart` | crates/piteka-application/src/reconciliation.rs:500-501 | webhook and abandonment receipt ids never clash |
| `Records.FinalStatusHasOutcome` | crates/piteka-application/src/receipt_production.rs:144-151 | the states the processor lets through are exactly the lower-case spellings of those with a definite outcome, and which outcome; `SUCCESS` has one and is deferred |
| `Records.OutcomeOfWord` | crates/piteka-application/src/receipt_production.rs:144-151 | `success` in any capitals means succeeded, `failure` and `error` mean failed, and everything else leaves the outcome unknown |
| `Approvals.OfficeAlways` | crates/piteka-application/src/action_request.rs:213-454 | the joint invariant of requests, decisions and deciding callers in every run without lookahead |
| `Approvals.StatusIsVersion` | crates/piteka-application/src/action_request.rs:213-454 | pending is version 1, approved or rejected is version 2, revoked is version 3, and conversely |
| `Approvals.OneDecision` | crates/piteka-application/src/action_request.rs:238-262 | a request that is not pending was decided by exactly one caller, a rejection if and only if it is rejected; the decision record is missing exactly while that caller is about to file it, and names request, caller, verdict, intent and time |
| `Approvals.NoSecondDecider` | crates/piteka-application/src/action_request.rs:238-262 | two calls never both decide a request, and a decision insert never finds its key taken |
| `Approvals.DecisionAgreesAtRest` | crates/piteka-application/src/action_request.rs:249-262 | with no caller in flight the stored decision agrees with the status |
| `Authority.CalledRequestStaysDecided` | crates/piteka-application/src/dispatch.rs:335-347 | a request whose mandate reached the provider is approved or revoked from then on |
| `Scenarios.Reserves` | crates/piteka-application/src/dispatch.rs:350-373 | a dispatch with the current version reserves any mandate, whatever its state, before its duplicate attempt is refused |
| `Lookahead.LookaheadReopensConsumed` | crates/piteka-application/src/dispatch.rs:350-373 | a concrete run from empty stores in which a consumed mandate is reserved again, without a second provider call |
| `Replay.SecondDispatchIsRefused` | crates/piteka-application/src/dispatch.rs:410-449 | a dispatch still at its check or its swap when its mandate is consumed, quarantined or abandoned never reserves; if it ends, it is `ReplayRejected` if and only if it saw its request approved, with the denial on record |
| `Replay.PastCheckSawApproval` | crates/piteka-application/src/dispatch.rs:335-347 | in any run a dispatch is past its check if and only if a move of its own found the request approved |
| `Replay.ReplayIsRecorded` | crates/piteka-application/src/dispatch.rs:420-434 | in any run the denial of a rejected replay is in the audit log |
| `Replay.InspectionDecides` | crates/piteka-application/src/dispatch.rs:410-449 | a lost reservation finds the mandate reserved and is told of the lost race, or used and is recorded as a replay |
| `Replay.OutcomeFollowsAnswer` | crates/piteka-application/src/dispatch.rs:476-592 | the mandate is reserved at the moment its provider call completes, and from then on goes with its dispatch: to consumed after an acceptance, with the given deployment id on the attempt by then, to quarantined after a failure |
| `Replay.StateTellsAnswer` | crates/piteka-application/src/dispatch.rs:476-592 | a used mandate had one provider call, and is consumed at version 3 if and only if the provider gave a deployment id, which its attempt then holds |
| `Lookahead.AlreadyConsumedIffSwapped` | crates/piteka-application/src/dispatch.rs:533-537 | in any run a completing dispatch gets `AlreadyConsumed` if and only if somebody swapped its mandate since its own reservation |
| `Lookahead.LookaheadGetsAlreadyConsumed` | crates/piteka-application/src/dispatch.rs:533-537 | a concrete run from empty stores: a second dispatch expects version 2, and the first gets `AlreadyConsumed` |
| `Lookahead.LookaheadApprovesRejected` | crates/piteka-application/src/action_request.rs:222-245 | a concrete run from empty stores in which an approval with a version ahead of its read approves a rejected request, whose stored decision stays a rejection |
| `Lookahead.LookaheadAbandonsConsumed` | crates/piteka-application/src/reconciliation.rs:490-516 | a concrete run from empty stores in which an abandonment with lookahead overwrites a reconciled mandate, which ends with two receipts of different outcomes (for a hash that gives the run's evidence texts different digests) |
| `Machine.DriveIsRun` | crates/piteka-application/src/dispatch.rs:617-712 | an operation left alone is one of the runs |
| `Runs.LeadsIsRun` | crates/piteka-application/src/dispatch.rs:617-712 | what a use-case method does to the stores is what its program does in a run |
| `DispatchUseCase.Reserve` | crates/piteka-application/src/dispatch.rs:323-452 | the method over the in-memory stores is the dispatch program up to the provider call, with the same refusals, and when granted leaves the call's own attempt in the journal, field by field |
| `DispatchUseCase.CompleteDispatch` | crates/piteka-application/src/dispatch.rs:476-592 | for any attempt, mandate and version: an unknown attempt changes nothing, otherwise that attempt records the answer, the mandate is swapped if its version is the expected one, only an applied swap is journaled, and each outcome has its own result; an acceptance without deployment id takes the failure path and is then reported as malformed |
| `DispatchUseCase.CompletionTells` | crates/piteka-application/src/dispatch.rs:476-592 | every field a completion changes and every answer it gives, case by case, including an acceptance without deployment id on missing, stale and current records |
| `DispatchUseCase.CompletionIsProgram` | crates/piteka-application/src/dispatch.rs:689-711 | with the arguments of `reserve_and_dispatch` that effect and result are the rest of the dispatch program |
| `DispatchUseCase.ReserveAndDispatch` | crates/piteka-application/src/dispatch.rs:617-712 | the whole flow is one run of the program to its end with the provider's answer |
| `ResolveUseCase.Reconcile` | crates/piteka-application/src/reconciliation.rs:315-440 | reconciliation is one run of the resolution program; a blank operator changes nothing |
| `ResolveUseCase.AbandonUnresolved` | crates/piteka-application/src/reconciliation.rs:445-546 | so is abandonment, which also demands a reason |
| `DecideUseCase.Propose` | crates/piteka-application/src/action_request.rs:165-196 | a proposal is one run of its program |
| `DecideUseCase.Decide` | crates/piteka-application/src/action_request.rs:213-454 | approve, reject and revoke are runs of the decision program, and the caller is told its outcome |
| `DeliverUseCase.Ingest` | crates/piteka-application/src/webhook_ingestion.rs:174-262 | a blank delivery id is refused and changes nothing; any other ingestion is the webhook program up to the gate; a new delivery is answered with its digest and flagged, in answer and audit log, if and only if an earlier arrival for its deployment had a later provider time |
| `DeliverUseCase.ProduceReceipt` | crates/piteka-application/src/receipt_production.rs:327-420 | receipt production is the rest of it, and for any status the receipt it reports is in store with the papers of this event, field by field, a gap among them exactly if the outcome is unknown |
| `DeliverUseCase.HandleWebhook` | apps/piteka-api/src/webhook.rs:210-264 | a webhook request is one run of the program; the response tells a blank id, a duplicate, which never reaches the processor, or a new delivery with digest and order flag |
| `MemoryStores.IndexedStore.Insert` | crates/piteka-storage/src/memory.rs:409-428 | rows and index together refine a log that the insertion extends; a rejected duplicate changes nothing |
| `MemoryStores.IndexedStore.Rewrite` | crates/piteka-storage/src/memory.rs:439-467 | rewriting a record in place rewrites its one log entry and keeps every group |
| `MemoryStores.IndexedStore.ByGroup` | crates/piteka-storage/src/memory.rs:469-482 | the index lookup returns exactly the insertion-ordered filter of the log with latest fields |
| `MemoryStores.GroupMembers` | crates/piteka-storage/src/memory.rs:535-548 | a record is in its group's list if and only if it was inserted with that group |
| `MemoryStores.UpdateState` | crates/piteka-storage/src/memory.rs:439-452 | exactly the named attempt gets the state, and an unknown id is refused |
| `MemoryStores.UpdateDeploymentId` | crates/piteka-storage/src/memory.rs:454-467 | exactly the named attempt gets the id, and an unknown id is refused |
| `MemoryStores.MandateStore.CompareAndSwap` | crates/piteka-storage/src/memory.rs:99-119 | the mutex section is the machine's atomic swap |
| `MemoryStores.RequestStore.CompareAndSwap` | crates/piteka-storage/src/memory.rs:323-342 | two maps with a default version act as one versioned record |
| `MemoryStores.RequestStore.Insert` | crates/piteka-storage/src/memory.rs:294-307 | a new request is at version 1 |
| `MemoryStores.AuditLog.Recent` | crates/piteka-storage/src/memory.rs:278-282 | the last events, as many as asked for or all, oldest first |
| `MemoryStores.Tracker.Record` | crates/piteka-application/src/webhook_ingestion.rs:87-97 | an event is flagged if and only if an earlier one for its deployment has a strictly greater provider time |
| `MemoryStores.TrackerKnowsHistory` | crates/piteka-application/src/webhook_ingestion.rs:82-98 | after any arrivals the one number per deployment answers as the full history would |
| `MemoryStores.ObjectStore.PutObject` | crates/piteka-storage/src/memory.rs:34-49 | success means the id reads back these bytes; nothing stored ever changes |
| `Ports.Backend.FirstAmbiguous` | crates/piteka-application/src/reconciliation.rs:347-359 | listing by mandate and taking the first ambiguous attempt finds one if and only if one is stored |
| `Ports.Backend.ByDeployment` | crates/piteka-storage/src/memory.rs:484-493 | the scan finds an attempt with the deployment id if and only if one is stored |
| `Postgres.PgSwapEffect` | crates/piteka-storage/src/postgres.rs:169-191 | between any other statements, success and effect are the one-step swap's at the UPDATE, and a failed call changes nothing |
| `Postgres.PgFailureRefines` | crates/piteka-storage/src/postgres.rs:192-200 | a failed call's answer is the one-step answer at some moment of the call if and only if it does not report the expected version |
| `Postgres.PgOddAnswer` | crates/piteka-storage/src/postgres.rs:192-200 | it reports the expected version if and only if the row was behind or absent at the UPDATE and had caught up at the SELECT |
| `Postgres.PgLoserLearnsNewerVersion` | crates/piteka-storage/src/postgres.rs:169-200 | without lookahead a losing caller is told a strictly greater version |
| `Postgres.PgOddAnswerHappens` | crates/piteka-storage/src/postgres.rs:169-200 | the odd answer on a concrete interleaving |
| `Postgres.PgPutRefines` | crates/piteka-storage/src/postgres.rs:68-102 | whatever is written in between, the two-statement put answers and does what the one-step put does at its INSERT |
| `Postgres.PgRecentIsSuffix` | crates/piteka-storage/src/postgres.rs:297-318 | the reversed descending page is the in-memory answer |
| `PostgresRuns.StepSeen` | crates/piteka-storage/src/postgres.rs:169-200 | every statement of every run is, to the stores and the callers, no step of the machine, one step, or one losing caller told of a conflict with the version it expected |
| `PostgresRuns.PgRunIsMachineRun` | crates/piteka-storage/src/postgres.rs:169-200 | a run in which no SELECT finds the expected version is a run of the machine with each failed swap at its SELECT, so there all results on runs carry over |
| `PostgresRuns.InformedHasNoOddRead` | crates/piteka-storage/src/postgres.rs:192-200 | no SELECT finds the expected version when every failed UPDATE met a later version |
| `PostgresSafety.PgAtMostOneProviderCall` | crates/piteka-storage/src/postgres.rs:169-200 | in every run over two-statement swaps, whatever the SELECTs find, the provider is called at most once for a mandate |
| `PostgresSafety.PgJointAlways` | crates/piteka-storage/src/postgres.rs:169-200 | in every such run without lookahead the joint invariant holds, and no holder of a reservation ever waits for an explanation of a failed swap |
| `PostgresSafety.PgMandatePath` | crates/piteka-storage/src/postgres.rs:169-200 | and every statement takes a mandate along its one path or leaves it alone |
| `PostgresSafety.PgFinalForever` | crates/piteka-storage/src/postgres.rs:169-200 | and consumed and abandoned records never change again, and are one of three |
| `PostgresSafety.PgReservedHasOneHolder` | crates/piteka-storage/src/postgres.rs:169-200 | and a reserved mandate belongs to exactly one dispatch in flight |
| `PostgresSafety.PgAtMostOneReceipt` | crates/piteka-application/src/reconciliation.rs:398-410 | and a mandate has at most one receipt |
| `Feed.FetchNodes` | crates/piteka-application/src/bundle_export.rs:224-246 | all nodes in order, or exactly the missing ids |
| `Feed.AssembleManifest` | crates/piteka-application/src/bundle_export.rs:199-221 | a manifest exists if and only if the receipt and all its evidence are stored |
| `Feed.BuildExports` | src/bin/evidence_feed_server.rs:150-193 | the loop yields the feed of the list, and neither sequence nor clock overflows `u64` for fewer than 2^63 receipts |
| `Feed.ExportsAreNumbered` | src/bin/evidence_feed_server.rs:158-191 | exports are the exportable receipts in list order, numbered from 1 and stamped by the clock |
| `Feed.ClockIsLeast` | src/bin/evidence_feed_server.rs:174-176 | the clock is strictly increasing, positive, never before the receipt, and the least such clock |
| `Feed.ClockClosedForm` | src/bin/evidence_feed_server.rs:174-176 | entry k is max(k + 1, max over j up to k of created j plus k minus j) |
| `Feed.ClockPrefix` | src/bin/evidence_feed_server.rs:144-149 | later receipts never change an earlier stamp |
| `FeedPaging.PageIsNextStretch` | src/bin/evidence_feed_server.rs:258-271 | a page is the next stretch of the feed, and its cursor says where it ends |
| `FeedPaging.RefusedIffOutOfRange` | src/bin/evidence_feed_server.rs:234 | a limit is refused if and only if it is not from 1 to 1024 |
| `FeedPaging.ReceivedIsPrefix` | src/bin/evidence_feed_server.rs:258-271 | a client of a feed that grows at its end has received exactly its first entries: no gap, no repeat |
| `FeedPaging.ReceivedInOrder` | src/bin/evidence_feed_server.rs:258-271 | the sequence numbers received are 1, 2, 3, up to the cursor |
| `FeedPaging.UnreadAdvances` | src/bin/evidence_feed_server.rs:258-271 | a pull that finds unread entries always advances, by as many as it may |
| `FeedPaging.DrainedInTime` | src/bin/evidence_feed_server.rs:258-271 | a fixed feed of n entries is drained in ceil(n / limit) pulls and not in fewer |
| `FeedPermanence.ManifestIsPermanent` | crates/piteka-application/src/bundle_export.rs:199-246 | in any run a webhook receipt has the same manifest from its insertion on, and an abandonment receipt never has one |
| `FeedPermanence.ManifestAttribution` | crates/piteka-application/src/bundle_export.rs:332-336 | in any run a published manifest attributes one claim to Piteka, one observation to the provider, and no gap |
| `FeedPermanence.PrefixIffNewIsLater` | crates/piteka-storage/src/postgres.rs:519-535 | an ordered list extends an earlier one at its end if and only if everything new sorts after everything old |
| `FeedPermanence.ExportsStayIffAppended` | src/bin/evidence_feed_server.rs:142-193 | earlier exports keep sequence, emission time and payload if and only if every newly exported receipt sorts after them |
| `FeedRuns.GrowsIffAppended` | src/bin/evidence_feed_server.rs:142-193 | the feeds that a client finds at successive moments of one run grow at their end if and only if everything newly exportable always sorted last |
| `FeedRuns.ClientReceivesFeed` | src/bin/evidence_feed_server.rs:258-271 | and then the client has received exactly the first exports of the last feed, each once, numbered 1, 2, 3, up to its cursor |
| `LateArrival.LateArrivalRenumbers` | src/bin/evidence_feed_server.rs:144-149 | a concrete run without lookahead from empty stores, and two pulls: the receipt that was export 1 is export 2, since one with an earlier time was stored in between (for a hash that gives the run's evidence texts different digests) |
| `LateArrival.ClientMissesLateArrival` | src/bin/evidence_feed_server.rs:258-271 | a client that pulls at these moments receives the one receipt twice and the other never (under the same condition) |
| `FeedBytes.WriteSigningBytes` | src/bin/evidence_feed_server.rs:64-90 | the appends produce the decodable layout |
| `FeedBytes.DomainIsText` | src/bin/evidence_feed_server.rs:42 | the domain bytes are the ASCII text and its zero byte |
| `FeedBytes.DecodeUndoesSigningBytes` | src/bin/evidence_feed_server.rs:64-90 | a decoder recovers every signed field when texts are shorter than 2^32 bytes |
| `FeedBytes.SigningBytesInjective` | src/bin/evidence_feed_server.rs:64-90 | different exports never share signing bytes |
| `Bytes.TakeFieldUndoes` | src/bin/evidence_feed_server.rs:87-90 | a length-prefixed text shorter than 2^32 bytes is read back whatever follows |
| `Bytes.ValueUndoesBigEndian` | src/bin/evidence_feed_server.rs:67-68 | a number in range is read back from its big-endian bytes |
| `SessionBytes.WriteSigningBytes` | crates/piteka-domain/src/session.rs:161-177 | the appends produce the decodable layout |
| `SessionBytes.DomainIsText` | crates/piteka-domain/src/session.rs:14 | the domain bytes are the ASCII text |
| `SessionBytes.DecodeUndoesSigningBytes` | crates/piteka-domain/src/session.rs:161-177 | a decoder recovers all claims when texts are shorter than 2^32 bytes |
| `SessionBytes.SigningBytesInjective` | crates/piteka-domain/src/session.rs:157-172 | claims with the same signing bytes are the same, if the texts of one of them are shorter than 2^32 bytes |
| `SessionBytes.LongTextsCollide` | crates/piteka-domain/src/session.rs:174-177 | distinct claims with equal signing bytes once a text reaches 2^32 bytes |
| `Sessions.Configure` | crates/piteka-domain/src/identity.rs:301-323 | a directory is accepted if and only if it is non-empty, of one organization and without duplicates; otherwise the first offender decides the error |
| `Sessions.MemberIsUnique` | crates/piteka-domain/src/identity.rs:339-343 | the lookup finds the one member with that id or none |
| `Sessions.ClaimsAreChecked` | crates/piteka-domain/src/session.rs:84-112 | claims are made of what is given unless subject, organization or window is empty, and the first of these decides the error |
| `Sessions.IssuedClaims` | crates/piteka-application/src/session.rs:259-280 | role and organization of issued claims come from the directory; they start at the clock and end a lifetime of at least one second later, or at the last second of `u64` if that is earlier |
| `Sessions.AcceptedWasIssued` | crates/piteka-application/src/session.rs:291-340 | whatever a caller presents, an accepted session carries exactly the claims of an earlier issue and stands for the directory's one such member |
| `Sessions.IssuedSessionLives` | crates/piteka-application/src/session.rs:291-340 | an issued session authenticates at t, as its subject, if and only if t is at or after the issue and before the issue plus the lifetime, or before the last second of `u64` if that sum saturates |
| `Sessions.AnswersMean` | crates/piteka-application/src/session.rs:291-340 | what each answer of `authenticate` means: an untrusted signature hides everything else, then the window, then the directory |
| `Sessions.IssuePanicsOnlyAtTheEnd` | crates/piteka-application/src/session.rs:259-280 | issuing fails only for unknown subjects, and panics only at the last second of `u64` |
| `Text.BlankIsTrimmedAway` | crates/piteka-application/src/reconciliation.rs:321-324 | an argument counts as blank if and only if trimming spaces off both ends leaves nothing |
| `Text.SpacesAre` | crates/piteka-application/src/reconciliation.rs:321-324 | the spaces are the 25 white space characters of Unicode |
| `CivilDate.CivilIsRight` | apps/piteka-web/src/lib.rs:87-98 | for every day from 1970 on, without leaving `i64`: a date of the proleptic Gregorian calendar, and counting back returns the day |
| `CivilDate.YearOfEraIsRight` | apps/piteka-web/src/lib.rs:91-94 | the four divisions find the year that the day lies in, and the 366th day only where a leap day makes room |
| `CivilDate.MonthIsRight` | apps/piteka-web/src/lib.rs:95-98 | the month formula agrees with the month lengths of a year that starts in March |
| `CivilDate.DayNumberMonotone` | apps/piteka-web/src/lib.rs:84-98 | dates and day numbers have the same order, so the date of a day is unique |
| `Rfc3339.MomentIsRight` | apps/piteka-web/src/lib.rs:84-101 | for every `u64` a valid date and time; counting back returns the input, or `i64::MAX` for inputs beyond it |
| `Rfc3339.PrintedTextIsRfc3339` | apps/piteka-web/src/lib.rs:102 | the printed text is a date-time of RFC 3339 if and only if the instant is before the year 10000, and then parses back to it |
| `Rfc3339.TextUndoesParse` | apps/piteka-web/src/lib.rs:102 | the parser used as reference takes nothing but printed moments: what it parses is the text of what it answers |
| `Rfc3339.TextOrderIsTimeOrder` | apps/piteka-web/src/lib.rs:102 | before the year 10000 string order is time order |

## Left out

- Storage failures: a backend error is an operation that never moves again; which error value its caller sees is not modelled.
- Liveness: nothing is claimed to happen eventually. A webhook that arrives before its deployment id is stored is recorded and skipped for good, as in the code.
- DecideUseCase.Decide: the `expect` on a vanished request is the result `NoRequest`; rows are never deleted, so it cannot come up.
- Audit events: times and free-text detail; the best-effort events after receipt production (`webhook.receipt_produced`, `webhook.processed`, `webhook.attempt_not_found`, `webhook.receipt_production_error`) are not written.
- Clocks: each operation reads one time; the webhook path reads the clock again for the receipt.
- Constant fields: dispatch boundary time, disclosure classification, relationships, canonical bytes.
- Version overflow: versions are unbounded integers, the code's `i64` would need 2^63 swaps.
- `InMemoryEvidenceNodeStore::by_mandate`: it indexes a `mand-` prefix that no evidence id has.
- The Postgres evidence-source column, which does not round-trip; evidence nodes are modelled at the port.
- The Postgres collation: `Text.Before` compares characters, the database's collation may order ids otherwise.
- The feed's receipt allow-list, its HTTP errors, and pulls that read receipts at several moments of one run (each manifest is the same at all of them).
- `assemble_bundle` and the content-addressed blob store: only easy members.
- Leap seconds and fractions of the RFC 3339 grammar, which the program never prints.
- HTTP routing, templates, MCP transport, configuration, the GitHub client, JSON parsing, cryptography: libraries and plumbing.
- Role capabilities, enum-to-text tables, error formatting: only easy members.
