/** `propose`, `approve`, `reject` and `revoke` (crates/piteka-application/src/action_request.rs). */
module DecideProgram {
  import opened Records
  import opened Stores

  datatype Verb = Approve | Reject | Revoke

  datatype DecideJob = DecideJob(verb: Verb, request: string, actor: string, intent: Option<string>, expected: int,
                                 now: int)

  datatype DecideResult = NoRequest | InvalidTransition(status: RequestStatus) | VersionConflict(current: int)
                        | DecisionExists | Decided(request: Request)

  /** `seen` is history: the version stored when the status was read. No branch looks at it. */
  datatype DecidePc = ReadRequest | SwapStatus(seen: int) | InsertDecision | AuditDecision | Refresh
                    | Settled(result: DecideResult)

  function Before(verb: Verb): RequestStatus { if verb == Revoke then Approved else Pending }

  function After(verb: Verb): RequestStatus {
    match verb case Approve => Approved case Reject => Rejected case Revoke => Revoked
  }

  function ActionName(verb: Verb): string {
    match verb case Approve => "approve_action" case Reject => "reject_action" case Revoke => "revoke_mandate"
  }

  function NewDecision(job: DecideJob): Decision {
    Decision(job.request, job.actor, job.verb == Approve, job.intent, job.now)
  }

  /** The decision says who decided which request, how, on what intent and when. */
  predicate IsDecisionOf(d: Decision, job: DecideJob) {
    && d.request == job.request && d.decidedBy == job.actor && (d.approved <==> job.verb == Approve)
    && d.intent == job.intent && d.decidedAt == job.now
  }

  function DecideAwaits(job: DecideJob, pc: DecidePc): Await {
    match pc
    case ReadRequest => GetRequest(job.request)
    case SwapStatus(_) => SwapRequest(job.request, job.expected, After(job.verb))
    case InsertDecision => PutDecision(DecisionId(job.request), NewDecision(job))
    case AuditDecision =>
      Log(Audit(Some(job.actor), ActionName(job.verb), if job.verb == Reject then "denied" else "granted", job.request))
    case Refresh => GetRequest(job.request)
    case Settled(_) => Idle
  }

  function DecideResume(job: DecideJob, pc: DecidePc, reply: Reply): DecidePc {
    match (pc, reply)
    case (ReadRequest, GotRequest(None)) => Settled(NoRequest)
    case (ReadRequest, GotRequest(Some(r))) =>
      if r.status == Before(job.verb) then SwapStatus(r.version) else Settled(InvalidTransition(r.status))
    case (SwapStatus(_), Swapped(Applied(_))) => if job.verb == Revoke then AuditDecision else InsertDecision
    case (SwapStatus(_), Swapped(Conflict(v))) => Settled(VersionConflict(v))
    case (SwapStatus(_), Swapped(Missing)) => Settled(NoRequest)
    case (InsertDecision, Stored(ok)) => if ok then AuditDecision else Settled(DecisionExists)
    case (AuditDecision, Logged) => Refresh
    case (Refresh, GotRequest(r)) => Settled(if r.Some? then Decided(r.value) else NoRequest)
    case _ => pc
  }

  datatype ProposeJob = ProposeJob(request: string, requestedBy: string, intent: Option<string>, now: int)
  datatype ProposePc = InsertRequest | AuditProposal | Proposed(created: bool)

  function ProposeAwaits(job: ProposeJob, pc: ProposePc): Await {
    match pc
    case InsertRequest => PutRequest(job.request, Request(job.requestedBy, job.intent, Pending, job.now, 1))
    case AuditProposal => Log(Audit(Some(job.requestedBy), "propose_action", "granted", job.request))
    case Proposed(_) => Idle
  }

  function ProposeResume(pc: ProposePc, reply: Reply): ProposePc {
    match (pc, reply)
    case (InsertRequest, Stored(ok)) => if ok then AuditProposal else Proposed(false)
    case (AuditProposal, Logged) => Proposed(true)
    case _ => pc
  }
}
