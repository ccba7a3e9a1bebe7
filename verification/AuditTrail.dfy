/** The audit log over whole runs: whoever got so far has logged it, and every event has its one actor. */
module AuditTrail {
  import opened Records
  import opened Stores
  import opened DispatchProgram
  import opened ResolveProgram
  import opened DeliverProgram
  import opened DecideProgram
  import opened Machine
  import opened Growth
  import opened Lifecycle
  import opened NoLookahead
  import opened Evidence

  /** Counters of a dispatch that logged its reservation. */
  predicate Journaled(pc: DispatchPc) {
    || pc.CallProvider? || pc.MarkAccepted? || pc.StoreDeployment? || pc.Consume? || pc.AuditConsume?
    || pc.MarkAmbiguous? || pc.Quarantine? || pc.AuditQuarantine?
    || (pc.Finished? && (pc.result.AlreadyConsumed? || pc.result.MandateVanished? || pc.result.DispatchAccepted?
                         || pc.result.DispatchFailed?))
  }

  function ReservationEvent(job: DispatchJob): Audit {
    Audit(Some(job.executor), "reserve_mandate", "granted", job.mandate)
  }

  function ConsumptionEvent(job: DispatchJob): Audit {
    Audit(Some(job.executor), "consume_mandate", "granted", job.mandate)
  }

  function QuarantineEvent(job: DispatchJob): Audit {
    Audit(Some(job.executor), "quarantine_mandate", "denied", job.mandate)
  }

  function ReplayEvent(job: DispatchJob): Audit {
    Audit(Some(job.executor), "execute_approved_deployment", "denied", job.mandate)
  }

  function ResolutionEvent(job: ResolveJob): Audit {
    if job.reason.None? then Audit(Some(job.operator), "reconciliation.accepted", "granted", job.mandate)
    else Audit(Some(job.operator), "reconciliation.abandoned", "abandoned", job.mandate)
  }

  function DecisionEvent(job: DecideJob): Audit {
    match job.verb
    case Approve => Audit(Some(job.actor), "approve_action", "granted", job.request)
    case Reject => Audit(Some(job.actor), "reject_action", "denied", job.request)
    case Revoke => Audit(Some(job.actor), "revoke_mandate", "granted", job.request)
  }

  function ProposalEvent(job: ProposeJob): Audit {
    Audit(Some(job.requestedBy), "propose_action", "granted", job.request)
  }

  function IngestionEvent(job: DeliverJob, late: bool): Audit {
    Audit(None, if late then "webhook.ingested.out_of_order" else "webhook.ingested", "accepted", job.delivery)
  }

  function DeferralEvent(job: DeliverJob): Audit {
    Audit(None, "webhook.status_non_terminal", "deferred", job.delivery)
  }

  function ReceiptEvent(mandate: string, outcome: Outcome): Audit {
    Audit(None, "receipt.produced",
          match outcome case Succeeded => "succeeded" case Failed => "failed" case _ => "unknown", mandate)
  }

  // What was logged stays logged.
  lemma LogStays(s: Stores, t: Stores, e: Audit)
    requires Grows(s, t) && e in s.audit
    ensures e in t.audit
  {
    var j :| 0 <= j < |s.audit| && s.audit[j] == e;
    assert t.audit[j] == e;
  }

  /** An operation at this counter has logged e. */
  predicate Owes(s: Stores, op: Op, e: Audit) {
    match op
    case DispatchOp(job, pc) =>
      || (Journaled(pc) && e == ReservationEvent(job))
      || (pc.Finished? && pc.result.DispatchAccepted? && e == ConsumptionEvent(job))
      || (pc.Finished? && pc.result.ReplayRejected? && e == ReplayEvent(job))
    case ResolveOp(job, pc) => pc.Closed? && pc.result.Resolved? && e == ResolutionEvent(job)
    case DecideOp(job, pc) => (pc.Refresh? || (pc.Settled? && pc.result.Decided?)) && e == DecisionEvent(job)
    case ProposeOp(job, pc) => pc == Proposed(true) && e == ProposalEvent(job)
    case DeliverOp(job, pc) =>
      && pc.Handled?
      && ((pc.result.Deferred? && e == DeferralEvent(job))
          || (pc.result.ReceiptProduced? && pc.result.receipt in s.receipts
              && var r := s.receipts[pc.result.receipt]; e == ReceiptEvent(r.mandate, r.outcome)))
  }

  /** An operation at this counter logs e now, and e names its actor, act, decision and subject. */
  predicate Speaks(op: Op, e: Audit) {
    match op
    case DispatchOp(job, RecordReplay(_)) => e == ReplayEvent(job)
    case DispatchOp(job, AuditReserve) => e == ReservationEvent(job)
    case DispatchOp(job, AuditConsume(_)) => e == ConsumptionEvent(job)
    case DispatchOp(job, AuditQuarantine) => e == QuarantineEvent(job)
    case ResolveOp(job, pc) => (pc.AuditAccepted? || pc.AuditAbandoned?) && e == ResolutionEvent(job)
    case DecideOp(job, AuditDecision) => e == DecisionEvent(job)
    case ProposeOp(job, AuditProposal) => e == ProposalEvent(job)
    case DeliverOp(job, AuditIngest(late)) => e == IngestionEvent(job, late)
    case DeliverOp(job, AuditDeferred) => e == DeferralEvent(job)
    case DeliverOp(job, AuditReceipt(a)) => e == ReceiptEvent(a.mandate, MapOutcome(job.event.state))
    case _ => false
  }

  // A resolution closes with the event that goes with its reason.
  ghost predicate KnowsReason(op: Op) {
    op.ResolveOp? ==>
      var job, pc := op.resolve, op.rpc;
      && (pc.RecordDeployment? || pc.MarkReconciled? || pc.AuditAccepted? ==> job.reason.None?)
      && (pc.MarkAbandoned? || pc.InsertUnknown? || pc.AuditAbandoned? ==> job.reason.Some?)
  }

  lemma ReasonNext(lib: Library, op: Op, reply: Reply)
    requires KnowsReason(op)
    ensures KnowsReason(Resume(lib, op, reply))
  {
  }

  lemma LogsSpeak(lib: Library, op: Op)
    requires KnowsReason(op) && Awaits(lib, op).Log?
    ensures Speaks(op, Awaits(lib, op).event)
  {
    hide MapOutcome, ObservationNode, ClaimNode, GapNode, WebhookReceipt, AttemptDigest;
    if op.DeliverOp? {
      OutcomeOfWord(op.deliver.event.state);
    }
  }

  // A new debt is paid by the very move that makes it.
  lemma PaidAtOnce(lib: Library, s: Stores, op: Op, c: Choice, e: Audit)
    requires KnowsReason(op) && OpHolds(lib, s, op)
    ensures var (t, reply) := Perform(s, Awaits(lib, op), c);
      Owes(t, Resume(lib, op, reply), e) && !Owes(s, op, e) ==> Awaits(lib, op) == Log(e)
  {
    hide Perform;
    match op
    case DispatchOp(job, pc) => PaidByDispatch(lib, s, job, pc, c, e);
    case DeliverOp(job, pc) => PaidByDelivery(lib, s, job, pc, c, e);
    case ResolveOp(job, pc) =>
    case DecideOp(job, pc) =>
    case ProposeOp(job, pc) =>
  }

  lemma PaidByDispatch(lib: Library, s: Stores, job: DispatchJob, pc: DispatchPc, c: Choice, e: Audit)
    ensures var (t, reply) := Perform(s, DispatchAwaits(lib, job, pc), c);
      Owes(t, DispatchOp(job, DispatchResume(pc, reply)), e) && !Owes(s, DispatchOp(job, pc), e)
      ==> DispatchAwaits(lib, job, pc) == Log(e)
  {
    hide Perform, AttemptDigest;
  }

  lemma PaidByDelivery(lib: Library, s: Stores, job: DeliverJob, pc: DeliverPc, c: Choice, e: Audit)
    requires PapersHold(lib, s, job, pc)
    ensures var (t, reply) := Perform(s, DeliverAwaits(lib, job, pc), c);
      Owes(t, DeliverOp(job, DeliverResume(lib, job, pc, reply)), e) && !Owes(s, DeliverOp(job, pc), e)
      ==> DeliverAwaits(lib, job, pc) == Log(e)
  {
    hide Perform, MapOutcome, IsFinalStatus, ObservationNode, ClaimNode, GapNode, WebhookReceipt, IsObservation,
         IsClaim, IsGap, SaysWord, Grows;
    var a := DeliverAwaits(lib, job, pc);
    PerformGrows(s, a, c);
    OutcomeOfWord(job.event.state);
    ReceiptsStay(s, Perform(s, a, c).0);
  }

  lemma ReceiptsStay(s: Stores, t: Stores)
    requires Grows(s, t)
    ensures forall k :: k in s.receipts ==> k in t.receipts && t.receipts[k] == s.receipts[k]
  {
  }

  ghost predicate AllPaid(s: Stores, op: Op) {
    KnowsReason(op) && forall e :: Owes(s, op, e) ==> e in s.audit
  }

  lemma PaidStays(lib: Library, s: Stores, t: Stores, op: Op)
    requires Grows(s, t) && AllPaid(s, op) && OpHolds(lib, s, op)
    ensures AllPaid(t, op)
  {
    hide KnowsReason, IsObservation, IsClaim, IsGap, SaysWord;
    ReceiptsStay(s, t);
    forall e | Owes(t, op, e) ensures e in t.audit {
      assert Owes(s, op, e);
      LogStays(s, t, e);
    }
  }

  lemma PaidNext(lib: Library, s: Stores, op: Op, c: Choice)
    requires AllPaid(s, op) && OpHolds(lib, s, op)
    ensures var (t, reply) := Perform(s, Awaits(lib, op), c); AllPaid(t, Resume(lib, op, reply))
  {
    hide Perform, Awaits, Resume, KnowsReason, Owes, OpHolds;
    var a := Awaits(lib, op);
    var (t, reply) := Perform(s, a, c);
    ReasonNext(lib, op, reply);
    OnlyLogWritesLog(s, a, c);
    forall e | Owes(t, Resume(lib, op, reply), e) ensures e in t.audit {
      PaidAtOnce(lib, s, op, c, e);
      if Owes(s, op, e) {
        var j :| 0 <= j < |s.audit| && s.audit[j] == e;
        assert t.audit[j] == e;
      } else {
        assert t.audit[|s.audit|] == e;
      }
    }
  }

  lemma {:induction false} AllPaidAlways(lib: Library, steps: seq<Step>, i: nat)
    requires i < |Reach(lib, steps).ops|
    ensures AllPaid(Reach(lib, steps).s, Reach(lib, steps).ops[i])
  {
    hide Perform, Awaits, Resume, AllPaid, OpHolds, Apply, AtStart, Grows;
    var n := |steps| - 1;
    var w, step := Reach(lib, steps[..n]), steps[n];
    StepOp(lib, w, step, i);
    EvidenceAlways(lib, steps[..n]);
    if i < |w.ops| {
      AllPaidAlways(lib, steps[..n], i);
      assert OpHolds(lib, w.s, w.ops[i]);
      if step.Move? && step.who == i {
        PaidNext(lib, w.s, w.ops[i], step.choice);
      } else {
        StepGrows(lib, w, step);
        PaidStays(lib, w.s, Reach(lib, steps).s, w.ops[i]);
      }
    } else {
      NothingOwed(Reach(lib, steps).s, Reach(lib, steps).ops[i]);
    }
  }

  lemma NothingOwed(s: Stores, op: Op)
    requires AtStart(op)
    ensures AllPaid(s, op)
  {
  }

  /**
   In every run, with any versions and crashes: a reservation past its journal, an accepted dispatch, a rejected replay,
   a closed resolution, a decision, a proposal, a deferral and a receipt are in the audit log by the time the operation
   stands there, with the operation's own actor and subject.
   */
  lemma EveryActIsLogged(lib: Library, steps: seq<Step>, i: nat, e: Audit)
    requires i < |Reach(lib, steps).ops| && Owes(Reach(lib, steps).s, Reach(lib, steps).ops[i], e)
    ensures e in Reach(lib, steps).s.audit
  {
    hide Reach, Owes;
    AllPaidAlways(lib, steps, i);
  }

  /** And every event in the log was written by a move of one operation, which speaks of itself. */
  lemma {:induction false} EveryEventHasActor(lib: Library, steps: seq<Step>, n: nat) returns (k: nat)
    requires n < |Reach(lib, steps).s.audit|
    ensures k < |steps| && steps[k].Move? && steps[k].who < |Reach(lib, steps[..k]).ops|
    ensures |Reach(lib, steps[..k]).s.audit| == n
    ensures Speaks(Reach(lib, steps[..k]).ops[steps[k].who], Reach(lib, steps).s.audit[n])
  {
    hide Perform, Awaits, Resume, Speaks, Grows, AllPaid, Owes;
    var last := |steps| - 1;
    var w, step := Reach(lib, steps[..last]), steps[last];
    if step.Move? && step.who < |w.ops| {
      OnlyLogWritesLog(w.s, Awaits(lib, w.ops[step.who]), step.choice);
    }
    if n < |w.s.audit| {
      k := EveryEventHasActor(lib, steps[..last], n);
      assert steps[..last][..k] == steps[..k];
    } else {
      k := last;
      AllPaidAlways(lib, steps[..last], step.who);
      ReasonOf(w.s, w.ops[step.who]);
      LogsSpeak(lib, w.ops[step.who]);
    }
  }

  lemma ReasonOf(s: Stores, op: Op)
    requires AllPaid(s, op)
    ensures KnowsReason(op)
  {
  }

  // ----- The one end that is logged only without lookahead

  lemma FailsByLogging(lib: Library, s: Stores, job: DispatchJob, pc: DispatchPc, c: Choice)
    requires DispatchFits(ViewOf(s, job.mandate), pc) && job.expected == 1
    ensures var (t, reply) := Perform(s, DispatchAwaits(lib, job, pc), c);
      DispatchResume(pc, reply) == Finished(DispatchFailed) && pc != Finished(DispatchFailed)
      ==> DispatchAwaits(lib, job, pc) == Log(QuarantineEvent(job))
  {
    hide AttemptDigest;
  }

  /** Without lookahead a failed dispatch has logged the quarantine. */
  lemma {:induction false} FailureIsLogged(lib: Library, steps: seq<Step>, i: nat, job: DispatchJob)
    requires PoliteRun(lib, steps) && i < |Reach(lib, steps).ops|
    requires Reach(lib, steps).ops[i] == DispatchOp(job, Finished(DispatchFailed))
    ensures QuarantineEvent(job) in Reach(lib, steps).s.audit
  {
    hide Perform, DispatchAwaits, DispatchResume, Apply, AtStart, DispatchFits, Shapes, OneEach, Attended;
    var n := |steps| - 1;
    var w, step := Reach(lib, steps[..n]), steps[n];
    PoliteRunPrefix(lib, steps, n);
    JointAlways(lib, steps[..n]);
    StepOp(lib, w, step, i);
    StartsUnfinished(Reach(lib, steps).ops[i]);
    StepGrows(lib, w, step);
    if w.ops[i] == Reach(lib, steps).ops[i] {
      FailureIsLogged(lib, steps[..n], i, job);
      LogStays(w.s, Reach(lib, steps).s, QuarantineEvent(job));
    } else {
      assert OpFits(w.s, w.ops[i]) && Polite(w.ops[i]);
      FailsByLogging(lib, w.s, job, w.ops[i].dpc, step.choice);
      OnlyLogWritesLog(w.s, DispatchAwaits(lib, job, w.ops[i].dpc), step.choice);
      assert Reach(lib, steps).s.audit[|w.s.audit|] == QuarantineEvent(job);
    }
  }

  lemma StartsUnfinished(op: Op)
    ensures AtStart(op) && op.DispatchOp? ==> !op.dpc.Finished?
  {
  }
}
