/** Receipts and the evidence they name, in every run, whatever versions callers pass. */
module Evidence {
  import opened Records
  import opened Stores
  import opened ResolveProgram
  import opened DeliverProgram
  import opened Machine
  import opened Growth
  import opened Lifecycle
  import opened NoLookahead

  /** The attempt a resolution carries once it found one. */
  function ResolvedAttempt(pc: ResolvePc): Option<Attempt> {
    match pc
    case AskProvider(_, a) => Some(a)
    case SwapResolved(_, a, _) => Some(a)
    case RecordDeployment(a, _, _) => Some(a)
    case MarkReconciled(a, _) => Some(a)
    case AuditAccepted(a, _) => Some(a)
    case MarkAbandoned(a, _) => Some(a)
    case InsertUnknown(a, _) => Some(a)
    case AuditAbandoned(a, _) => Some(a)
    case _ => None
  }

  /** Counters a webhook reaches only after the gate let its state through. */
  predicate BeyondGate(pc: DeliverPc) {
    pc.LookUpAttempt? || CarriedAttempt(pc).Some?
  }

  ghost predicate IsStored(s: Stores, a: Attempt) {
    a.id in s.attempts && NewerAttempt(a, s.attempts[a.id])
  }

  ghost predicate Filed(s: Stores, node: Node) {
    node.id in s.nodes && s.nodes[node.id] == node
  }

  /** The store's record of this delivery is the request's own. */
  ghost predicate Recorded(lib: Library, s: Stores, job: DeliverJob) {
    && job.delivery in s.deliveries
    && s.deliveries[job.delivery] == Delivery("github", lib.sha(job.event.raw), job.now)
  }

  ghost predicate DeliverHolds(lib: Library, s: Stores, job: DeliverJob, pc: DeliverPc) {
    && (Past(pc) ==> Recorded(lib, s, job))
    && (BeyondGate(pc) ==> IsFinalStatus(job.event.state))
    && PapersHold(lib, s, job, pc)
  }

  /** Exactly an unknown outcome has a gap, which is in store. */
  ghost predicate GapsTold(lib: Library, s: Stores, job: DeliverJob, a: Attempt, gaps: seq<string>) {
    if MapOutcome(job.event.state) == Unknown
    then gaps == [GapNode(lib, a, job.now).id] && Filed(s, GapNode(lib, a, job.now))
    else gaps == []
  }

  /** The attempt a request carries holds the event's deployment; what it has filed so far is in store. */
  ghost predicate PapersHold(lib: Library, s: Stores, job: DeliverJob, pc: DeliverPc) {
    && (CarriedAttempt(pc).Some? ==> AboutIt(s, job, CarriedAttempt(pc).value))
    && match pc
       case InsertGap(_) => MapOutcome(job.event.state) == Unknown
       case InsertObservation(a, gaps) => GapsTold(lib, s, job, a, gaps)
       case InsertClaim(a, gaps) =>
         GapsTold(lib, s, job, a, gaps) && Filed(s, ObservationNode(lib, a, job.event, job.now))
       case InsertReceipt(a, gaps) =>
         && GapsTold(lib, s, job, a, gaps) && Filed(s, ObservationNode(lib, a, job.event, job.now))
         && Filed(s, ClaimNode(lib, a, MapOutcome(job.event.state), job.now))
       case AuditReceipt(a) => PaperTrail(lib, s, ReceiptId(a.id), job, a)
       case Handled(ReceiptProduced(k)) => HasPaperTrail(lib, s, k, job)
       case _ => true
  }

  ghost predicate AboutIt(s: Stores, job: DeliverJob, a: Attempt) {
    IsStored(s, a) && a.deployment == Some(job.event.deployment)
  }

  ghost predicate HasPaperTrail(lib: Library, s: Stores, k: string, job: DeliverJob) {
    exists a :: AboutIt(s, job, a) && PaperTrail(lib, s, k, job, a)
  }

  ghost predicate OpHolds(lib: Library, s: Stores, op: Op) {
    match op
    case DeliverOp(job, pc) => DeliverHolds(lib, s, job, pc)
    case ResolveOp(job, pc) => ResolvedAttempt(pc).Some? ==>
      IsStored(s, ResolvedAttempt(pc).value) && ResolvedAttempt(pc).value.mandate == job.mandate
    case _ => true
  }

  /** The evidence is in store, and comes from that source. */
  ghost predicate Attributed(s: Stores, refs: seq<string>, source: Source) {
    forall i :: 0 <= i < |refs| ==> refs[i] in s.nodes && s.nodes[refs[i]].source == source
  }

  /**
   A receipt the webhook path stored: a definite outcome, on an attempt with a deployment id, with its evidence
   in store. The target's evidence is the provider's, and the dispatch evidence is Piteka's own claim.
   */
  ghost predicate FromWebhook(s: Stores, k: string, r: Receipt) {
    && k == ReceiptId(r.attempt) && r.attempt in s.attempts && s.attempts[r.attempt].mandate == r.mandate
    && s.attempts[r.attempt].intent == r.intent && s.attempts[r.attempt].deployment.Some?
    && r.outcome in {Succeeded, Failed}
    && |r.dispatchRefs| == 1 && Attributed(s, r.dispatchRefs, Piteka)
    && |r.targetRefs| == 1 && Attributed(s, r.targetRefs, Provider("github")) && r.gaps == []
  }

  /** A receipt the abandonment stored. */
  ghost predicate FromAbandonment(s: Stores, k: string, r: Receipt) {
    && k == AbandonedReceiptId(r.attempt) && r.attempt in s.attempts && s.attempts[r.attempt].mandate == r.mandate
    && s.attempts[r.attempt].intent == r.intent
    && r.outcome == Unknown && r.dispatchRefs == [] && r.targetRefs == [] && r.gaps == ["target_outcome"]
  }

  ghost predicate ReceiptHolds(s: Stores, k: string) {
    k in s.receipts ==>
      s.receipts[k].id == k && (FromWebhook(s, k, s.receipts[k]) || FromAbandonment(s, k, s.receipts[k]))
  }

  /** Every evidence node is filed under an `ev-` id. */
  ghost predicate NodesNamed(s: Stores) {
    forall k :: k in s.nodes ==> "ev-" <= k && s.nodes[k].id == k
  }

  ghost predicate EvidenceOk(lib: Library, w: World) {
    && Keyed(w.s.attempts) && NodesNamed(w.s)
    && (forall i :: 0 <= i < |w.ops| ==> OpHolds(lib, w.s, w.ops[i]))
    && (forall k :: ReceiptHolds(w.s, k))
  }

  // ----- Growth keeps what holds

  lemma StoredStays(s: Stores, t: Stores, a: Attempt)
    requires Grows(s, t) && IsStored(s, a)
    ensures IsStored(t, a)
  {
    assert NewerAttempt(s.attempts[a.id], t.attempts[a.id]);
  }

  lemma TrailStays(lib: Library, s: Stores, t: Stores, k: string, job: DeliverJob, a: Attempt)
    requires Grows(s, t) && PaperTrail(lib, s, k, job, a)
    ensures PaperTrail(lib, t, k, job, a)
  {
    hide IsObservation, IsClaim, IsGap, SaysWord;
  }

  lemma PapersStay(lib: Library, s: Stores, t: Stores, job: DeliverJob, pc: DeliverPc)
    requires Grows(s, t) && PapersHold(lib, s, job, pc)
    ensures PapersHold(lib, t, job, pc)
  {
    hide IsStored, ObservationNode, ClaimNode, GapNode, MapOutcome, PaperTrail;
    if CarriedAttempt(pc).Some? {
      StoredStays(s, t, CarriedAttempt(pc).value);
    }
    match pc
    case AuditReceipt(a) => TrailStays(lib, s, t, ReceiptId(a.id), job, a);
    case Handled(ReceiptProduced(k)) =>
      var a :| AboutIt(s, job, a) && PaperTrail(lib, s, k, job, a);
      StoredStays(s, t, a);
      TrailStays(lib, s, t, k, job, a);
      assert AboutIt(t, job, a);
    case _ =>
  }

  lemma OpHoldsStays(lib: Library, s: Stores, t: Stores, op: Op)
    requires Grows(s, t) && OpHolds(lib, s, op)
    ensures OpHolds(lib, t, op)
  {
    match op
    case DeliverOp(job, pc) =>
      hide IsStored, PapersHold, IsFinalStatus;
      PapersStay(lib, s, t, job, pc);
    case ResolveOp(_, pc) =>
      hide IsStored, Grows;
      if ResolvedAttempt(pc).Some? {
        StoredStays(s, t, ResolvedAttempt(pc).value);
      }
    case _ =>
  }

  lemma ReceiptStays(s: Stores, t: Stores, k: string)
    requires Grows(s, t) && k in s.receipts && ReceiptHolds(s, k)
    ensures ReceiptHolds(t, k)
  {
    var r := s.receipts[k];
    assert NewerAttempt(s.attempts[r.attempt], t.attempts[r.attempt]);
    if FromWebhook(s, k, r) {
      assert FromWebhook(t, k, r);
    }
  }

  // ----- One move

  // All papers filed, the receipt goes in and names them.
  lemma TrailComplete(lib: Library, s: Stores, job: DeliverJob, a: Attempt, gaps: seq<string>)
    requires PapersHold(lib, s, job, InsertReceipt(a, gaps))
    ensures var r := WebhookReceipt(lib, job, a, gaps); PaperTrail(lib, Adding(s, r), r.id, job, a)
  {
    hide ObservationNode, ClaimNode, GapNode, IsObservation, IsClaim, IsGap, MapOutcome, SaysWord;
    OutcomeOfWord(job.event.state);
    NodesAreLabelled(lib, job, a);
  }

  lemma PapersNext(lib: Library, s: Stores, job: DeliverJob, pc: DeliverPc, c: Choice)
    requires KeyedById(s.attempts) && PapersHold(lib, s, job, pc)
    ensures var (t, reply) := Perform(s, DeliverAwaits(lib, job, pc), c);
      PapersHold(lib, t, job, DeliverResume(lib, job, pc, reply))
  {
    hide Perform, MapOutcome, ObservationNode, ClaimNode, GapNode, WebhookReceipt, PaperTrail, Grows, IsStored;
    var a := DeliverAwaits(lib, job, pc);
    var (t, reply) := Perform(s, a, c);
    PerformGrows(s, a, c);
    PapersStay(lib, s, t, job, pc);
    ReplyTellsStore(s, a, c);
    match pc
    case InsertReceipt(x, gaps) =>
      TrailComplete(lib, s, job, x, gaps);
      ReceiptIdIsOwn(lib, job, x, gaps);
    case AuditReceipt(x) => assert AboutIt(t, job, x) && PaperTrail(lib, t, ReceiptId(x.id), job, x);
    case _ =>
  }

  lemma ReceiptIdIsOwn(lib: Library, job: DeliverJob, a: Attempt, gaps: seq<string>)
    ensures WebhookReceipt(lib, job, a, gaps).id == ReceiptId(a.id)
  {
  }

  lemma DeliverHoldsNext(lib: Library, s: Stores, job: DeliverJob, pc: DeliverPc, c: Choice)
    requires KeyedById(s.attempts) && DeliverHolds(lib, s, job, pc)
    ensures var (t, reply) := Perform(s, DeliverAwaits(lib, job, pc), c);
      DeliverHolds(lib, t, job, DeliverResume(lib, job, pc, reply))
  {
    hide Perform, PapersHold, ObservationNode, ClaimNode, GapNode, WebhookReceipt;
    FinalStatusHasOutcome(job.event.state);
    var a := DeliverAwaits(lib, job, pc);
    PerformGrows(s, a, c);
    ReplyTellsStore(s, a, c);
    PapersNext(lib, s, job, pc, c);
  }

  // What the replies the webhook path branches on mean.
  lemma ReplyTellsStore(s: Stores, a: Await, c: Choice)
    requires KeyedById(s.attempts)
    ensures var (t, reply) := Perform(s, a, c);
      && (a.PutNode? && reply == Stored(true) ==> Filed(t, a.node))
      && (a.FindByDeployment? && reply.GotAttempt? && reply.attempt.Some? ==>
            IsStored(t, reply.attempt.value) && reply.attempt.value.deployment == Some(a.deployment))
      && (a.PutReceipt? && reply == Stored(true) ==> t == Adding(s, a.receipt))
      && (a.PutDelivery? && reply == Stored(true) ==> a.id in t.deliveries && t.deliveries[a.id] == a.delivery)
      && (a.FindAmbiguous? && reply.GotAttempt? && reply.attempt.Some? ==>
            IsStored(t, reply.attempt.value) && reply.attempt.value.mandate == a.mandate)
  {
  }

  lemma ResolveHoldsNext(lib: Library, s: Stores, job: ResolveJob, pc: ResolvePc, c: Choice)
    requires Keyed(s.attempts) && OpHolds(lib, s, ResolveOp(job, pc))
    ensures var (t, reply) := Perform(s, ResolveAwaits(job, pc), c);
      OpHolds(lib, t, ResolveOp(job, ResolveResume(job, pc, reply)))
  {
    hide Perform, Grows, IsStored;
    var a := ResolveAwaits(job, pc);
    var (t, reply) := Perform(s, a, c);
    PerformGrows(s, a, c);
    if ResolvedAttempt(pc).Some? {
      StoredStays(s, t, ResolvedAttempt(pc).value);
    }
    ReplyTellsStore(s, a, c);
  }

  function Adding(s: Stores, r: Receipt): Stores {
    s.(receipts := s.receipts[r.id := r])
  }

  lemma WebhookReceiptHolds(lib: Library, s: Stores, job: DeliverJob, x: Attempt, gaps: seq<string>)
    requires Keyed(s.attempts) && DeliverHolds(lib, s, job, InsertReceipt(x, gaps))
    ensures var r := WebhookReceipt(lib, job, x, gaps); ReceiptHolds(Adding(s, r), r.id)
  {
    FinalStatusHasOutcome(job.event.state);
    var r := WebhookReceipt(lib, job, x, gaps);
    assert FromWebhook(Adding(s, r), r.id, r);
  }

  lemma UnknownReceiptHolds(s: Stores, job: ResolveJob, x: Attempt)
    requires Keyed(s.attempts) && IsStored(s, x) && x.mandate == job.mandate
    ensures var r := UnknownReceipt(job, x); ReceiptHolds(Adding(s, r), r.id)
  {
    var r := UnknownReceipt(job, x);
    assert FromAbandonment(Adding(s, r), r.id, r);
  }

  // A new receipt is one of the two kinds; a new node is filed under its own id.
  lemma NewReceiptHolds(lib: Library, s: Stores, op: Op, c: Choice, k: string)
    requires Keyed(s.attempts) && OpHolds(lib, s, op)
    ensures var t := Perform(s, Awaits(lib, op), c).0; k in t.receipts && k !in s.receipts ==> ReceiptHolds(t, k)
  {
    hide Perform, Keyed, ReceiptHolds, DeliverHolds, IsStored, WebhookReceipt, UnknownReceipt;
    var a := Awaits(lib, op);
    ReceiptComesByPut(s, a, c, k);
    if a.PutReceipt? && k == a.receipt.id {
      match op
      case DeliverOp(job, InsertReceipt(x, gaps)) => WebhookReceiptHolds(lib, s, job, x, gaps);
      case ResolveOp(job, InsertUnknown(x, _)) => UnknownReceiptHolds(s, job, x);
      case _ =>
    }
  }

  lemma ReceiptComesByPut(s: Stores, a: Await, c: Choice, k: string)
    ensures var t := Perform(s, a, c).0;
      k in t.receipts && k !in s.receipts ==>
        a.PutReceipt? && k == a.receipt.id && t == Adding(s, a.receipt)
  {
  }

  lemma NodesStayNamed(lib: Library, s: Stores, op: Op, c: Choice)
    requires NodesNamed(s)
    ensures NodesNamed(Perform(s, Awaits(lib, op), c).0)
  {
    var a := Awaits(lib, op);
    match op {
      case DeliverOp(job, pc) => NodeIdsArePrefixed(lib, job, pc);
      case _ => assert !a.PutNode?;
    }
    PutNamesNodes(s, a, c);
  }

  lemma NodeIdsArePrefixed(lib: Library, job: DeliverJob, pc: DeliverPc)
    ensures DeliverAwaits(lib, job, pc).PutNode? ==> "ev-" <= DeliverAwaits(lib, job, pc).node.id
  {
  }

  lemma PutNamesNodes(s: Stores, a: Await, c: Choice)
    requires NodesNamed(s) && (a.PutNode? ==> "ev-" <= a.node.id)
    ensures NodesNamed(Perform(s, a, c).0)
  {
    hide IsAmbiguousOf, HasAmbiguous, HoldsDeployment, DeploymentKnown, Cas, CasStatus, Track, SetState, SetDeployment;
    var t := Perform(s, a, c).0;
    if !a.PutNode? {
      assert t.nodes == s.nodes;
    }
  }

  lemma MoveKeepsEvidence(lib: Library, w: World, i: nat, c: Choice)
    requires EvidenceOk(lib, w) && i < |w.ops|
    ensures EvidenceOk(lib, Apply(lib, w, Move(i, c)))
  {
    var s, op := w.s, w.ops[i];
    var a := Awaits(lib, op);
    var (t, reply) := Perform(s, a, c);
    PerformGrows(s, a, c);
    KeyedKept(s, op, lib, c);
    NodesStayNamed(lib, s, op, c);
    match op {
      case DeliverOp(job, pc) => DeliverHoldsNext(lib, s, job, pc, c);
      case ResolveOp(job, pc) => ResolveHoldsNext(lib, s, job, pc, c);
      case _ =>
    }
    EvidenceAssembles(lib, w, i, c, World(t, w.ops[i := Resume(lib, op, reply)]));
  }

  lemma EvidenceAssembles(lib: Library, w: World, i: nat, c: Choice, v: World)
    requires EvidenceOk(lib, w) && i < |w.ops| && Grows(w.s, v.s) && |v.ops| == |w.ops| && v.ops == w.ops[i := v.ops[i]]
    requires v.s == Perform(w.s, Awaits(lib, w.ops[i]), c).0
    requires OpHolds(lib, v.s, v.ops[i]) && Keyed(v.s.attempts) && NodesNamed(v.s)
    ensures EvidenceOk(lib, v)
  {
    forall j | 0 <= j < |v.ops| ensures OpHolds(lib, v.s, v.ops[j]) {
      if j != i {
        assert OpHolds(lib, w.s, w.ops[j]);
        OpHoldsStays(lib, w.s, v.s, w.ops[j]);
      }
    }
    forall k ensures ReceiptHolds(v.s, k) {
      assert ReceiptHolds(w.s, k);
      if k in w.s.receipts {
        ReceiptStays(w.s, v.s, k);
      } else {
        assert OpHolds(lib, w.s, w.ops[i]);
        NewReceiptHolds(lib, w.s, w.ops[i], c, k);
      }
    }
  }

  lemma StartHolds(lib: Library, s: Stores, op: Op)
    requires AtStart(op)
    ensures OpHolds(lib, s, op)
  {
  }

  lemma StepKeepsEvidence(lib: Library, w: World, step: Step)
    requires EvidenceOk(lib, w)
    ensures EvidenceOk(lib, Apply(lib, w, step))
  {
    hide OpHolds, ReceiptHolds, Exec, Grows;
    match step
    case Issue(_) =>
      StepGrows(lib, w, step);
      IssueKeepsEvidence(lib, w, Apply(lib, w, step));
    case Start(op) =>
      if AtStart(op) {
        StartHolds(lib, w.s, op);
      }
    case Move(i, c) =>
      if i < |w.ops| {
        MoveKeepsEvidence(lib, w, i, c);
      }
  }

  lemma IssueKeepsEvidence(lib: Library, w: World, v: World)
    requires EvidenceOk(lib, w) && v == w.(s := w.s.(mandates := v.s.mandates)) && Grows(w.s, v.s)
    ensures EvidenceOk(lib, v)
  {
    hide Grows, OpHolds, ReceiptHolds;
    forall j | 0 <= j < |v.ops| ensures OpHolds(lib, v.s, v.ops[j]) {
      OpHoldsStays(lib, w.s, v.s, w.ops[j]);
    }
    forall k ensures ReceiptHolds(v.s, k) {
      assert ReceiptHolds(w.s, k);
      if k in w.s.receipts {
        ReceiptStays(w.s, v.s, k);
      } else {
        NothingStored(v.s, k);
      }
    }
  }

  lemma NothingStored(s: Stores, k: string)
    requires k !in s.receipts
    ensures ReceiptHolds(s, k)
  {
  }

  /** In every run: each receipt is of one of the two kinds, and a webhook receipt's evidence is in store. */
  lemma {:induction false} EvidenceAlways(lib: Library, steps: seq<Step>)
    ensures EvidenceOk(lib, Reach(lib, steps))
  {
    if steps != [] {
      EvidenceAlways(lib, steps[..|steps| - 1]);
      StepKeepsEvidence(lib, Reach(lib, steps[..|steps| - 1]), steps[|steps| - 1]);
    }
  }

  /** The receipts with unknown outcome are exactly the abandonment receipts. */
  lemma {:induction false} UnknownIsAbandonment(lib: Library, steps: seq<Step>, k: string)
    requires k in Reach(lib, steps).s.receipts
    ensures var r := Reach(lib, steps).s.receipts[k];
      r.outcome == Unknown <==> k == AbandonedReceiptId(r.attempt)
  {
    EvidenceAlways(lib, steps);
    var s := Reach(lib, steps).s;
    assert ReceiptHolds(s, k);
    ReceiptIdsApart(s.receipts[k].mandate, s.receipts[k].attempt);
  }

  /**
   The first terminal status stored for an attempt is final: its receipt is the only webhook receipt the attempt
   ever has.
   */
  lemma {:induction false} FirstTerminalStatusIsFinal(lib: Library, steps: seq<Step>, n: nat, k: string, later: string)
    requires n <= |steps| && k in Reach(lib, steps[..n]).s.receipts && later in Reach(lib, steps).s.receipts
    requires Reach(lib, steps[..n]).s.receipts[k].outcome != Unknown
    requires Reach(lib, steps).s.receipts[later].attempt == Reach(lib, steps[..n]).s.receipts[k].attempt
    requires Reach(lib, steps).s.receipts[later].outcome != Unknown
    ensures later == k && Reach(lib, steps).s.receipts[later] == Reach(lib, steps[..n]).s.receipts[k]
  {
    EvidenceAlways(lib, steps[..n]);
    EvidenceAlways(lib, steps);
    RunGrows(lib, steps, n);
    assert ReceiptHolds(Reach(lib, steps[..n]).s, k) && ReceiptHolds(Reach(lib, steps).s, later);
  }

  lemma OneReceiptInWorld(lib: Library, w: World, k: string, l: string)
    requires EvidenceOk(lib, w) && Joint(w)
    requires k in w.s.receipts && l in w.s.receipts && w.s.receipts[k].mandate == w.s.receipts[l].mandate
    ensures k == l
  {
    assert ReceiptHolds(w.s, k) && ReceiptHolds(w.s, l) && ShapeOk(ViewOf(w.s, w.s.receipts[k].mandate));
  }

  /** Without lookahead a mandate has at most one receipt, of either kind. */
  lemma {:induction false} AtMostOneReceipt(lib: Library, steps: seq<Step>, k: string, l: string)
    requires PoliteRun(lib, steps)
    requires k in Reach(lib, steps).s.receipts && l in Reach(lib, steps).s.receipts
    requires Reach(lib, steps).s.receipts[k].mandate == Reach(lib, steps).s.receipts[l].mandate
    ensures k == l
  {
    hide Reach;
    EvidenceAlways(lib, steps);
    JointAlways(lib, steps);
    OneReceiptInWorld(lib, Reach(lib, steps), k, l);
  }

  /** An abandoned mandate never gains a webhook receipt, even if its abandonment crashed before storing its own. */
  lemma {:induction false} AbandonedHasNoOutcome(lib: Library, steps: seq<Step>, m: string, k: string)
    requires PoliteRun(lib, steps)
    requires m in Reach(lib, steps).s.mandates && Reach(lib, steps).s.mandates[m].state == Abandoned
    requires k in Reach(lib, steps).s.receipts && Reach(lib, steps).s.receipts[k].mandate == m
    ensures Reach(lib, steps).s.receipts[k].outcome == Unknown && k == AbandonedReceiptId(AttemptId(m))
  {
    EvidenceAlways(lib, steps);
    JointAlways(lib, steps);
    var s := Reach(lib, steps).s;
    assert ReceiptHolds(s, k) && ShapeOk(ViewOf(s, m));
  }
}
