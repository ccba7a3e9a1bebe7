/**
 `reconcile` and `abandon_unresolved` (crates/piteka-application/src/reconciliation.rs); the latter carries a reason.
 */
module ResolveProgram {
  import opened Text
  import opened Records
  import opened Stores

  datatype ResolveJob = ResolveJob(mandate: string, operator: string, expected: int, reason: Option<string>, now: int)

  datatype ResolveResult =
    | MandateNotFound | AlreadyTerminal(state: Label) | NotQuarantined(found: Option<Label>)
    | Unresolved | CasConflict(current: int) | AttemptLost | ReceiptExists
    | Resolved(attempt: string, version: int)

  datatype ResolvePc =
    | ReadMandate | FindAttempt(seen: Mandate) | AskProvider(seen: Mandate, a: Attempt)
    | SwapResolved(seen: Mandate, a: Attempt, found: int)
    | RecordDeployment(a: Attempt, found: int, version: int) | MarkReconciled(a: Attempt, version: int)
    | AuditAccepted(a: Attempt, version: int)
    | MarkAbandoned(a: Attempt, version: int) | InsertUnknown(a: Attempt, version: int)
    | AuditAbandoned(a: Attempt, version: int)
    | Closed(result: ResolveResult)

  /** The argument checks both entry points make before touching a store. */
  predicate Admitted(job: ResolveJob) {
    !IsBlank(job.operator) && (job.reason.Some? ==> !IsBlank(job.reason.value))
  }

  function UnknownReceipt(job: ResolveJob, a: Attempt): Receipt {
    Receipt(AbandonedReceiptId(a.id), job.mandate, a.intent, a.id, Unknown, job.now, [], [], ["target_outcome"])
  }

  /** The receipt of an abandonment: nobody knows the outcome, nothing attests it, and that is the gap. */
  predicate IsAbandonmentOf(r: Receipt, job: ResolveJob, attempt: string, intent: string) {
    && r.id == "rcpt-abandoned-" + attempt && r.mandate == job.mandate && r.intent == intent && r.attempt == attempt
    && r.outcome == Unknown && r.createdAt == job.now && r.dispatchRefs == [] && r.targetRefs == []
    && r.gaps == ["target_outcome"]
  }

  function ResolveAwaits(job: ResolveJob, pc: ResolvePc): Await {
    match pc
    case ReadMandate => GetMandate(job.mandate)
    case FindAttempt(_) => FindAmbiguous(job.mandate)
    case AskProvider(_, a) => FindCorrelated(a)
    case SwapResolved(_, _, _) =>
      SwapMandate(job.mandate, job.expected, if job.reason.None? then Consumed else Abandoned)
    case RecordDeployment(a, found, _) => SetAttemptDeployment(a.id, found)
    case MarkReconciled(a, _) => SetAttemptState(a.id, ReconciledAccepted)
    case AuditAccepted(_, _) => Log(Audit(Some(job.operator), "reconciliation.accepted", "granted", job.mandate))
    case MarkAbandoned(a, _) => SetAttemptState(a.id, AbandonedAmbiguous)
    case InsertUnknown(a, _) => PutReceipt(UnknownReceipt(job, a))
    case AuditAbandoned(_, _) => Log(Audit(Some(job.operator), "reconciliation.abandoned", "abandoned", job.mandate))
    case Closed(_) => Idle
  }

  function ResolveResume(job: ResolveJob, pc: ResolvePc, reply: Reply): ResolvePc {
    match (pc, reply)
    case (ReadMandate, GotMandate(None)) => Closed(MandateNotFound)
    case (ReadMandate, GotMandate(Some(m))) =>
      if m.state == Quarantined then FindAttempt(m)
      else if job.reason.None? && IsTerminal(m.state) then Closed(AlreadyTerminal(m.state))
      else Closed(NotQuarantined(Some(m.state)))
    case (FindAttempt(_), GotAttempt(None)) => Closed(NotQuarantined(None))
    case (FindAttempt(seen), GotAttempt(Some(a))) =>
      if job.reason.None? then AskProvider(seen, a) else SwapResolved(seen, a, 0)
    case (AskProvider(seen, a), Answered(answer)) =>
      if answer.Some? then SwapResolved(seen, a, answer.value) else Closed(Unresolved)
    case (SwapResolved(_, a, found), Swapped(Applied(v))) =>
      if job.reason.Some? then MarkAbandoned(a, v)
      else if a.deployment != Some(found) then RecordDeployment(a, found, v)
      else MarkReconciled(a, v)
    case (SwapResolved(_, _, _), Swapped(Conflict(v))) => Closed(CasConflict(v))
    case (SwapResolved(_, _, _), Swapped(Missing)) => Closed(MandateNotFound)
    case (RecordDeployment(a, found, v), Stored(ok)) => if ok then MarkReconciled(a, v) else Closed(AttemptLost)
    case (MarkReconciled(a, v), Stored(ok)) => if ok then AuditAccepted(a, v) else Closed(AttemptLost)
    case (AuditAccepted(a, v), Logged) => Closed(Resolved(a.id, v))
    case (MarkAbandoned(a, v), Stored(ok)) => if ok then InsertUnknown(a, v) else Closed(AttemptLost)
    case (InsertUnknown(a, v), Stored(ok)) => if ok then AuditAbandoned(a, v) else Closed(ReceiptExists)
    case (AuditAbandoned(a, v), Logged) => Closed(Resolved(a.id, v))
    case _ => pc
  }
}
