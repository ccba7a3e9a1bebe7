/** `reserve_and_dispatch` (crates/piteka-application/src/dispatch.rs) as a program that awaits one call at a time. */
module DispatchProgram {
  import opened Records
  import opened Stores

  datatype DispatchJob = DispatchJob(request: string, mandate: string, intent: string, executor: string,
                                     tokenDigest: string, correlation: string, expected: int, now: int)

  datatype DispatchResult =
    | RequestNotFound | NotApproved(status: RequestStatus) | NoMandate | ReservationFailed(winner: int)
    | ReplayRejected(state: Label) | AttemptExists | AttemptMissing | AlreadyConsumed | MandateVanished
    | DispatchAccepted(deployment: int) | DispatchFailed

  datatype DispatchPc =
    | CheckRequest | Reserve | InspectConflict(current: int) | RecordReplay(seen: Label)
    | InsertAttempt | MarkDispatching | AuditReserve | CallProvider
    | MarkAccepted(d: int) | StoreDeployment(d: int) | Consume(d: int) | AuditConsume(d: int)
    | MarkAmbiguous | Quarantine | AuditQuarantine
    | Finished(result: DispatchResult)

  function NewAttempt(job: DispatchJob): Attempt {
    Attempt(AttemptId(job.mandate), job.mandate, job.intent, job.tokenDigest, job.executor,
            job.correlation, job.now, Prepared, None)
  }

  /** The attempt repeats what the dispatch was called with, under an id made of its mandate's. */
  predicate IsAttemptOf(a: Attempt, job: DispatchJob) {
    && a.id == "att-" + job.mandate && a.mandate == job.mandate && a.intent == job.intent
    && a.tokenDigest == job.tokenDigest && a.executor == job.executor && a.correlation == job.correlation
    && a.startedAt == job.now
  }

  /** `compute_attempt_digest`. */
  function AttemptDigest(lib: Library, job: DispatchJob): string {
    lib.sha(AttemptId(job.mandate) + "|" + job.mandate + "|" + job.intent)
  }

  function DispatchAwaits(lib: Library, job: DispatchJob, pc: DispatchPc): Await {
    var id, actor := AttemptId(job.mandate), Some(job.executor);
    match pc
    case CheckRequest => GetRequest(job.request)
    case Reserve => SwapMandate(job.mandate, job.expected, Reserved)
    case InspectConflict(_) => GetMandate(job.mandate)
    case RecordReplay(_) => Log(Audit(actor, "execute_approved_deployment", "denied", job.mandate))
    case InsertAttempt => PutAttempt(NewAttempt(job))
    case MarkDispatching => SetAttemptState(id, Dispatching)
    case AuditReserve => Log(Audit(actor, "reserve_mandate", "granted", job.mandate))
    case CallProvider => CreateDeployment(ProviderCall(job.mandate, id, job.correlation, AttemptDigest(lib, job)))
    case MarkAccepted(_) => SetAttemptState(id, Accepted)
    case StoreDeployment(d) => SetAttemptDeployment(id, d)
    case Consume(_) => SwapMandate(job.mandate, job.expected + 1, Consumed)
    case AuditConsume(_) => Log(Audit(actor, "consume_mandate", "granted", job.mandate))
    case MarkAmbiguous => SetAttemptState(id, OutcomeAmbiguous)
    case Quarantine => SwapMandate(job.mandate, job.expected + 1, Quarantined)
    case AuditQuarantine => Log(Audit(actor, "quarantine_mandate", "denied", job.mandate))
    case Finished(_) => Idle
  }

  function DispatchResume(pc: DispatchPc, reply: Reply): DispatchPc {
    match (pc, reply)
    case (CheckRequest, GotRequest(None)) => Finished(RequestNotFound)
    case (CheckRequest, GotRequest(Some(r))) =>
      if r.status == Approved then Reserve else Finished(NotApproved(r.status))
    case (Reserve, Swapped(Applied(_))) => InsertAttempt
    case (Reserve, Swapped(Conflict(v))) => InspectConflict(v)
    case (Reserve, Swapped(Missing)) => Finished(NoMandate)
    case (InspectConflict(v), GotMandate(m)) =>
      if m.Some? && m.value.state in {Consumed, Quarantined, Abandoned} then RecordReplay(m.value.state)
      else Finished(ReservationFailed(v))
    case (RecordReplay(state), Logged) => Finished(ReplayRejected(state))
    case (InsertAttempt, Stored(ok)) => if ok then MarkDispatching else Finished(AttemptExists)
    case (MarkDispatching, Stored(ok)) => if ok then AuditReserve else Finished(AttemptMissing)
    case (AuditReserve, Logged) => CallProvider
    case (CallProvider, Answered(answer)) => if answer.Some? then MarkAccepted(answer.value) else MarkAmbiguous
    case (MarkAccepted(d), Stored(ok)) => if ok then StoreDeployment(d) else Finished(AttemptMissing)
    case (StoreDeployment(d), Stored(ok)) => if ok then Consume(d) else Finished(AttemptMissing)
    case (Consume(d), Swapped(Applied(_))) => AuditConsume(d)
    case (Consume(d), Swapped(Conflict(_))) => Finished(AlreadyConsumed)
    case (Consume(d), Swapped(Missing)) => Finished(MandateVanished)
    case (AuditConsume(d), Logged) => Finished(DispatchAccepted(d))
    case (MarkAmbiguous, Stored(ok)) => if ok then Quarantine else Finished(AttemptMissing)
    case (Quarantine, Swapped(Applied(_))) => AuditQuarantine
    case (Quarantine, Swapped(Conflict(_))) => Finished(DispatchFailed)
    case (Quarantine, Swapped(Missing)) => Finished(MandateVanished)
    case (AuditQuarantine, Logged) => Finished(DispatchFailed)
    case _ => pc
  }

  // ----- What the program text alone says

  /** The attempt is inserted and the provider not yet called. */
  predicate InWindow(pc: DispatchPc) {
    pc.MarkDispatching? || pc.AuditReserve? || pc.CallProvider?
  }

  /** Counters after an acceptance with deployment id d. */
  predicate AfterYes(pc: DispatchPc, d: int) {
    pc in {MarkAccepted(d), StoreDeployment(d), Consume(d), AuditConsume(d), Finished(DispatchAccepted(d))}
  }

  predicate AfterNo(pc: DispatchPc) {
    pc in {MarkAmbiguous, Quarantine, AuditQuarantine, Finished(DispatchFailed)}
  }

  // The window opens with a stored attempt and closes with the provider's answer.
  lemma WindowEdges(lib: Library, job: DispatchJob, pc: DispatchPc, reply: Reply)
    ensures DispatchAwaits(lib, job, pc).CreateDeployment? <==> pc.CallProvider?
    ensures InWindow(DispatchResume(pc, reply)) ==>
      if InWindow(pc) then pc.CallProvider? ==> !reply.Answered? else pc.InsertAttempt? && reply == Stored(true)
  {
  }

  // Each counter up to the provider call is entered from one place, by one reply.
  lemma OneWayIn(pc: DispatchPc, reply: Reply)
    ensures var next := DispatchResume(pc, reply);
      next != pc ==>
        && (next.CallProvider? ==> pc.AuditReserve?)
        && (next.AuditReserve? ==> pc.MarkDispatching?)
        && (next.MarkDispatching? ==> pc.InsertAttempt? && reply == Stored(true))
        && (next.InsertAttempt? ==> pc.Reserve? && reply.Swapped? && reply.outcome.Applied?)
        && (next.Reserve? ==>
              pc.CheckRequest? && reply.GotRequest? && reply.request.Some? && reply.request.value.status == Approved)
  {
  }
}
