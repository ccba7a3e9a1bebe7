/** A webhook request: `ingest`, then `process` and `produce_receipt_from_webhook` for a new delivery. */
module DeliverProgram {
  import opened Records
  import opened Stores

  datatype DeliverJob = DeliverJob(delivery: string, event: Event, now: int)

  datatype DeliverResult = Duplicate | Deferred | Skipped | ProductionFailed | ReceiptProduced(receipt: string)

  datatype DeliverPc =
    | LookUpDelivery | RecordDelivery | TrackOrder | AuditIngest(outOfOrder: bool) | AuditDeferred | LookUpAttempt
    | InsertGap(a: Attempt)
    | InsertObservation(a: Attempt, gaps: seq<string>) | InsertClaim(a: Attempt, gaps: seq<string>)
    | InsertReceipt(a: Attempt, gaps: seq<string>) | AuditReceipt(a: Attempt)
    | Handled(result: DeliverResult)

  function ObservationNode(lib: Library, a: Attempt, event: Event, now: int): Node {
    Node(NodeId(lib.sha("github" + a.mandate + "|" + a.id + "|deployment_status|" + event.state)),
         "org.diewan.evidence.observation.v1", Provider("github"), "github", now, Some(AsI64(event.updatedAt)),
         lib.sha(lib.statusJson(event)), "application/github-deployment-status+json")
  }

  function ClaimNode(lib: Library, a: Attempt, outcome: Outcome, now: int): Node {
    Node(NodeId(lib.sha("piteka" + a.mandate + "|" + a.id + "|outcome_claim|" + OutcomeText(outcome))),
         "org.diewan.evidence.claim.v1", Piteka, "piteka", now, None,
         lib.sha(lib.claimJson(outcome)), "application/piteka-outcome-claim+json")
  }

  const GAP_REASON := "GitHub deployment status is pending/inactive; outcome cannot be determined"

  function GapNode(lib: Library, a: Attempt, now: int): Node {
    Node(NodeId(lib.sha(a.mandate + "|" + a.id + "|evidence_gap|target_outcome|" + GAP_REASON)),
         "org.diewan.evidence.gap.v1", Piteka, "piteka", now, None, lib.sha(GAP_REASON), "text/plain")
  }

  function WebhookReceipt(lib: Library, job: DeliverJob, a: Attempt, gaps: seq<string>): Receipt {
    var outcome := MapOutcome(job.event.state);
    Receipt(ReceiptId(a.id), a.mandate, a.intent, a.id, outcome, job.now,
            [ClaimNode(lib, a, outcome, job.now).id], [ObservationNode(lib, a, job.event, job.now).id], gaps)
  }

  // ----- What the papers say, field by field

  /** The provider's observation: this status, received now, asserted by the provider at its own time. */
  predicate IsObservation(lib: Library, n: Node, job: DeliverJob, a: Attempt) {
    && n.id == "ev-" + lib.sha("github" + a.mandate + "|" + a.id + "|deployment_status|" + job.event.state)
    && n.registry == "org.diewan.evidence.observation.v1" && n.source == Provider("github") && n.producer == "github"
    && n.collectedAt == job.now && Wraps(n.assertedAt, job.event.updatedAt)
    && n.digest == lib.sha(lib.statusJson(job.event))
    && n.mediaType == "application/github-deployment-status+json"
  }

  /** Piteka's claim of the outcome, asserted at no time of its own. */
  predicate IsClaim(lib: Library, n: Node, outcome: Outcome, job: DeliverJob, a: Attempt) {
    var word := match outcome case Succeeded => "succeeded" case Failed => "failed" case _ => "unknown";
    && n.id == "ev-" + lib.sha("piteka" + a.mandate + "|" + a.id + "|outcome_claim|" + word)
    && n.registry == "org.diewan.evidence.claim.v1" && n.source == Piteka && n.producer == "piteka"
    && n.collectedAt == job.now && n.assertedAt == None && n.digest == lib.sha(lib.claimJson(outcome))
    && n.mediaType == "application/piteka-outcome-claim+json"
  }

  /** The gap that stands for an outcome the status does not tell. */
  predicate IsGap(lib: Library, n: Node, job: DeliverJob, a: Attempt) {
    var reason := "GitHub deployment status is pending/inactive; outcome cannot be determined";
    && n.id == "ev-" + lib.sha(a.mandate + "|" + a.id + "|evidence_gap|target_outcome|" + reason)
    && n.registry == "org.diewan.evidence.gap.v1" && n.source == Piteka && n.producer == "piteka"
    && n.collectedAt == job.now && n.assertedAt == None && n.digest == lib.sha(reason) && n.mediaType == "text/plain"
  }

  lemma NodesAreLabelled(lib: Library, job: DeliverJob, a: Attempt)
    ensures IsObservation(lib, ObservationNode(lib, a, job.event, job.now), job, a)
    ensures IsClaim(lib, ClaimNode(lib, a, MapOutcome(job.event.state), job.now), MapOutcome(job.event.state), job, a)
    ensures MapOutcome(job.event.state) == Unknown ==> IsGap(lib, GapNode(lib, a, job.now), job, a)
  {
    hide MapOutcome;
    OutcomeOfWord(job.event.state);
  }

  predicate Names(nodes: map<string, Node>, refs: seq<string>) {
    |refs| == 1 && refs[0] in nodes
  }

  /**
   Receipt k and its evidence are those of this event and this attempt: the receipt repeats the attempt's mandate and
   intent and carries the request's time, its outcome is the one the status states, and it names one observation and
   one claim in store, and one gap if the outcome is unknown.
   */
  predicate PaperTrail(lib: Library, s: Stores, k: string, job: DeliverJob, a: Attempt) {
    && k == "rcpt-" + a.id && k in s.receipts
    && var r := s.receipts[k];
       && r.id == k && r.mandate == a.mandate && r.intent == a.intent && r.attempt == a.id && r.createdAt == job.now
       && r.outcome == (if SaysWord(job.event.state, "success") then Succeeded
                        else if SaysWord(job.event.state, "failure") || SaysWord(job.event.state, "error") then Failed
                        else Unknown)
       && Names(s.nodes, r.targetRefs) && IsObservation(lib, s.nodes[r.targetRefs[0]], job, a)
       && Names(s.nodes, r.dispatchRefs) && IsClaim(lib, s.nodes[r.dispatchRefs[0]], r.outcome, job, a)
       && if r.outcome == Unknown then Names(s.nodes, r.gaps) && IsGap(lib, s.nodes[r.gaps[0]], job, a)
          else r.gaps == []
  }

  function DeliverAwaits(lib: Library, job: DeliverJob, pc: DeliverPc): Await {
    var outcome := MapOutcome(job.event.state);
    match pc
    case LookUpDelivery => GetDelivery(job.delivery)
    case RecordDelivery => PutDelivery(job.delivery, Delivery("github", lib.sha(job.event.raw), job.now))
    case TrackOrder => TrackTime(job.event.deployment, job.event.updatedAt)
    case AuditIngest(late) =>
      Log(Audit(None, if late then "webhook.ingested.out_of_order" else "webhook.ingested", "accepted", job.delivery))
    case AuditDeferred => Log(Audit(None, "webhook.status_non_terminal", "deferred", job.delivery))
    case LookUpAttempt => FindByDeployment(job.event.deployment)
    case InsertGap(a) => PutNode(GapNode(lib, a, job.now))
    case InsertObservation(a, _) => PutNode(ObservationNode(lib, a, job.event, job.now))
    case InsertClaim(a, _) => PutNode(ClaimNode(lib, a, outcome, job.now))
    case InsertReceipt(a, gaps) => PutReceipt(WebhookReceipt(lib, job, a, gaps))
    case AuditReceipt(a) => Log(Audit(None, "receipt.produced", OutcomeText(outcome), a.mandate))
    case Handled(_) => Idle
  }

  function DeliverResume(lib: Library, job: DeliverJob, pc: DeliverPc, reply: Reply): DeliverPc {
    match (pc, reply)
    case (LookUpDelivery, GotDelivery(found)) => if found.Some? then Handled(Duplicate) else RecordDelivery
    case (RecordDelivery, Stored(ok)) => if ok then TrackOrder else Handled(Duplicate)
    case (TrackOrder, Late(late)) => AuditIngest(late)
    case (AuditIngest(_), Logged) => if IsFinalStatus(job.event.state) then LookUpAttempt else AuditDeferred
    case (AuditDeferred, Logged) => Handled(Deferred)
    case (LookUpAttempt, GotAttempt(None)) => Handled(Skipped)
    case (LookUpAttempt, GotAttempt(Some(a))) =>
      if MapOutcome(job.event.state) == Unknown then InsertGap(a) else InsertObservation(a, [])
    case (InsertGap(a), Stored(ok)) =>
      if ok then InsertObservation(a, [GapNode(lib, a, job.now).id]) else Handled(ProductionFailed)
    case (InsertObservation(a, gaps), Stored(ok)) => if ok then InsertClaim(a, gaps) else Handled(ProductionFailed)
    case (InsertClaim(a, gaps), Stored(ok)) => if ok then InsertReceipt(a, gaps) else Handled(ProductionFailed)
    case (InsertReceipt(a, gaps), Stored(ok)) => if ok then AuditReceipt(a) else Handled(ProductionFailed)
    case (AuditReceipt(a), Logged) => Handled(ReceiptProduced(ReceiptId(a.id)))
    case _ => pc
  }

  /** The delivery id was new to the store when this request recorded it. */
  predicate Past(pc: DeliverPc) {
    !pc.LookUpDelivery? && !pc.RecordDelivery? && pc != Handled(Duplicate)
  }

  lemma PastByRecording(pc: DeliverPc, lib: Library, job: DeliverJob, reply: Reply)
    ensures Past(DeliverResume(lib, job, pc, reply)) ==> Past(pc) || (pc.RecordDelivery? && reply == Stored(true))
  {
  }
}
