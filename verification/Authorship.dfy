/**
 Every insert-once record of every run has exactly one author among the operations, and says what its author was
 called with. No versions are assumed, and no operation is assumed to go on.
 */
module Authorship {
  import opened Records
  import opened Stores
  import opened DispatchProgram
  import opened ResolveProgram
  import opened DeliverProgram
  import opened DecideProgram
  import opened Machine
  import opened Growth
  import opened Evidence

  /** A place in one of the insert-once stores. */
  datatype Slot = RequestSlot(id: string) | DecisionSlot(id: string) | AttemptSlot(id: string)
                | ReceiptSlot(id: string) | DeliverySlot(id: string)

  predicate InStore(s: Stores, slot: Slot) {
    match slot
    case RequestSlot(id) => id in s.requests
    case DecisionSlot(id) => id in s.decisions
    case AttemptSlot(id) => id in s.attempts
    case ReceiptSlot(id) => id in s.receipts
    case DeliverySlot(id) => id in s.deliveries
  }

  /** Counters of a dispatch that inserted its attempt. */
  predicate Inserted(pc: DispatchPc) {
    || InWindow(pc) || pc.MarkAccepted? || pc.StoreDeployment? || pc.Consume? || pc.AuditConsume?
    || pc.MarkAmbiguous? || pc.Quarantine? || pc.AuditQuarantine?
    || (pc.Finished? && (pc.result.AttemptMissing? || pc.result.AlreadyConsumed? || pc.result.MandateVanished?
                         || pc.result.DispatchAccepted? || pc.result.DispatchFailed?))
  }

  /** Counters of a decision that was filed. */
  predicate FiledDecision(job: DecideJob, pc: DecidePc) {
    job.verb != Revoke && (pc.AuditDecision? || pc.Refresh? || (pc.Settled? && pc.result.Decided?))
  }

  predicate FiledRequest(pc: ProposePc) {
    pc.AuditProposal? || pc == Proposed(true)
  }

  /** The operation wrote the record in this place. */
  predicate Authored(op: Op, slot: Slot) {
    match op
    case DispatchOp(job, pc) => slot == AttemptSlot("att-" + job.mandate) && Inserted(pc)
    case ResolveOp(job, AuditAbandoned(a, _)) => job.reason.Some? && slot == ReceiptSlot("rcpt-abandoned-" + a.id)
    case ResolveOp(job, Closed(Resolved(id, _))) => job.reason.Some? && slot == ReceiptSlot("rcpt-abandoned-" + id)
    case DeliverOp(job, pc) =>
      || (slot == DeliverySlot(job.delivery) && Past(pc))
      || (pc.AuditReceipt? && slot == ReceiptSlot("rcpt-" + pc.a.id))
      || (pc.Handled? && pc.result.ReceiptProduced? && slot == ReceiptSlot(pc.result.receipt))
    case DecideOp(job, pc) => slot == DecisionSlot("dec-" + job.request) && FiledDecision(job, pc)
    case ProposeOp(job, pc) => slot == RequestSlot(job.request) && FiledRequest(pc)
    case _ => false
  }

  // ----- What the authors' records say

  /** The abandonment's receipt is in store, about an attempt of the mandate it abandoned. */
  ghost predicate AbandonmentFiled(s: Stores, job: ResolveJob, id: string) {
    && "rcpt-abandoned-" + id in s.receipts && id in s.attempts && s.attempts[id].mandate == job.mandate
    && IsAbandonmentOf(s.receipts["rcpt-abandoned-" + id], job, id, s.attempts[id].intent)
  }

  /** The request repeats its proposal. */
  predicate IsProposalOf(q: Request, job: ProposeJob) {
    q.requestedBy == job.requestedBy && q.intent == job.intent && q.createdAt == job.now
  }

  predicate Abandoning(pc: ResolvePc) {
    pc.MarkAbandoned? || pc.InsertUnknown? || pc.AuditAbandoned?
  }

  predicate Accepting(pc: ResolvePc) {
    pc.RecordDeployment? || pc.MarkReconciled? || pc.AuditAccepted?
  }

  ghost predicate WorkHolds(s: Stores, op: Op) {
    match op
    case DispatchOp(job, pc) => Inserted(pc) ==>
      "att-" + job.mandate in s.attempts && IsAttemptOf(s.attempts["att-" + job.mandate], job)
    case ResolveOp(job, pc) =>
      && (Abandoning(pc) ==> job.reason.Some?) && (Accepting(pc) ==> job.reason.None?)
      && (pc.AuditAbandoned? ==> AbandonmentFiled(s, job, pc.a.id))
      && (pc.Closed? && pc.result.Resolved? && job.reason.Some? ==> AbandonmentFiled(s, job, pc.result.attempt))
    case DecideOp(job, pc) =>
      && (pc.InsertDecision? || pc.AuditDecision? || pc.Refresh? ==> job.request in s.requests)
      && (pc.InsertDecision? ==> job.verb != Revoke)
      && (FiledDecision(job, pc) ==>
            "dec-" + job.request in s.decisions && IsDecisionOf(s.decisions["dec-" + job.request], job))
    case ProposeOp(job, pc) => FiledRequest(pc) ==>
      job.request in s.requests && IsProposalOf(s.requests[job.request], job)
    case DeliverOp(_, _) => true
  }

  lemma WorkStays(s: Stores, t: Stores, op: Op)
    requires Grows(s, t) && WorkHolds(s, op)
    ensures WorkHolds(t, op)
  {
    match op
    case DispatchOp(job, pc) =>
      if Inserted(pc) {
        assert NewerAttempt(s.attempts["att-" + job.mandate], t.attempts["att-" + job.mandate]);
      }
    case ResolveOp(job, pc) =>
      if pc.AuditAbandoned? {
        AbandonmentStays(s, t, job, pc.a.id);
      }
      if pc.Closed? && pc.result.Resolved? && job.reason.Some? {
        AbandonmentStays(s, t, job, pc.result.attempt);
      }
    case ProposeOp(job, pc) =>
      if FiledRequest(pc) {
        assert NewerRequest(s.requests[job.request], t.requests[job.request]);
      }
    case _ =>
  }

  lemma AbandonmentStays(s: Stores, t: Stores, job: ResolveJob, id: string)
    requires Grows(s, t) && AbandonmentFiled(s, job, id)
    ensures AbandonmentFiled(t, job, id)
  {
    assert NewerAttempt(s.attempts[id], t.attempts[id]);
  }

  // What an insertion that succeeded leaves.
  lemma PutStores(s: Stores, a: Await, c: Choice)
    ensures var (t, reply) := Perform(s, a, c);
      reply == Stored(true) ==>
        && (a.PutAttempt? ==> a.attempt.id in t.attempts && t.attempts[a.attempt.id] == a.attempt)
        && (a.PutRequest? ==> a.id in t.requests && t.requests[a.id] == a.request)
        && (a.PutDecision? ==> a.id in t.decisions && t.decisions[a.id] == a.decision)
        && (a.PutReceipt? ==> t == Adding(s, a.receipt))
    ensures var (t, reply) := Perform(s, a, c);
      a.SwapRequest? && reply.Swapped? && reply.outcome.Applied? ==> a.id in t.requests
    ensures var (t, reply) := Perform(s, a, c);
      a.GetRequest? && a.id in s.requests ==> t == s && reply.GotRequest? && reply.request.Some?
  {
    hide IsAmbiguousOf, HasAmbiguous, HoldsDeployment, DeploymentKnown, SetState, SetDeployment, Track, Cas;
  }

  lemma DispatchWorks(lib: Library, s: Stores, job: DispatchJob, pc: DispatchPc, c: Choice)
    requires WorkHolds(s, DispatchOp(job, pc))
    ensures var (t, reply) := Perform(s, DispatchAwaits(lib, job, pc), c);
      WorkHolds(t, DispatchOp(job, DispatchResume(pc, reply)))
  {
    hide Perform, Grows;
    var a := DispatchAwaits(lib, job, pc);
    PerformGrows(s, a, c);
    WorkStays(s, Perform(s, a, c).0, DispatchOp(job, pc));
    PutStores(s, a, c);
  }

  lemma ResolveWorks(lib: Library, s: Stores, job: ResolveJob, pc: ResolvePc, c: Choice)
    requires WorkHolds(s, ResolveOp(job, pc)) && OpHolds(lib, s, ResolveOp(job, pc))
    ensures var (t, reply) := Perform(s, ResolveAwaits(job, pc), c);
      WorkHolds(t, ResolveOp(job, ResolveResume(job, pc, reply)))
  {
    hide Perform, Grows;
    var a := ResolveAwaits(job, pc);
    PerformGrows(s, a, c);
    WorkStays(s, Perform(s, a, c).0, ResolveOp(job, pc));
    PutStores(s, a, c);
  }

  lemma DecideWorks(s: Stores, job: DecideJob, pc: DecidePc, c: Choice)
    requires WorkHolds(s, DecideOp(job, pc))
    ensures var (t, reply) := Perform(s, DecideAwaits(job, pc), c);
      WorkHolds(t, DecideOp(job, DecideResume(job, pc, reply)))
  {
    hide Perform, Grows;
    var a := DecideAwaits(job, pc);
    PerformGrows(s, a, c);
    WorkStays(s, Perform(s, a, c).0, DecideOp(job, pc));
    PutStores(s, a, c);
  }

  lemma ProposeWorks(s: Stores, job: ProposeJob, pc: ProposePc, c: Choice)
    requires WorkHolds(s, ProposeOp(job, pc))
    ensures var (t, reply) := Perform(s, ProposeAwaits(job, pc), c);
      WorkHolds(t, ProposeOp(job, ProposeResume(pc, reply)))
  {
    hide Perform, Grows;
    var a := ProposeAwaits(job, pc);
    PerformGrows(s, a, c);
    WorkStays(s, Perform(s, a, c).0, ProposeOp(job, pc));
    PutStores(s, a, c);
  }

  lemma WorkNext(lib: Library, s: Stores, op: Op, c: Choice)
    requires WorkHolds(s, op) && OpHolds(lib, s, op)
    ensures var (t, reply) := Perform(s, Awaits(lib, op), c); WorkHolds(t, Resume(lib, op, reply))
  {
    hide Perform, WorkHolds, OpHolds;
    match op
    case DispatchOp(job, pc) => DispatchWorks(lib, s, job, pc, c);
    case ResolveOp(job, pc) => ResolveWorks(lib, s, job, pc, c);
    case DecideOp(job, pc) => DecideWorks(s, job, pc, c);
    case ProposeOp(job, pc) => ProposeWorks(s, job, pc, c);
    case DeliverOp(job, pc) => NoWork(Perform(s, DeliverAwaits(lib, job, pc), c).0, job,
                                      DeliverResume(lib, job, pc, Perform(s, DeliverAwaits(lib, job, pc), c).1));
  }

  lemma NoWork(s: Stores, job: DeliverJob, pc: DeliverPc)
    ensures WorkHolds(s, DeliverOp(job, pc))
  {
  }

  // ----- Exactly one author

  function SlotOf(a: Await): Option<Slot> {
    match a
    case PutRequest(id, _) => Some(RequestSlot(id))
    case PutDecision(id, _) => Some(DecisionSlot(id))
    case PutAttempt(x) => Some(AttemptSlot(x.id))
    case PutReceipt(r) => Some(ReceiptSlot(r.id))
    case PutDelivery(id, _) => Some(DeliverySlot(id))
    case _ => None
  }

  // Only a successful insertion fills a place, and it was empty before.
  lemma FilledByPut(s: Stores, a: Await, c: Choice, slot: Slot)
    ensures var (t, reply) := Perform(s, a, c);
      && (InStore(t, slot) && !InStore(s, slot) ==> SlotOf(a) == Some(slot) && reply == Stored(true))
      && (SlotOf(a) == Some(slot) && reply == Stored(true) ==> InStore(t, slot) && !InStore(s, slot))
      && (InStore(s, slot) ==> InStore(t, slot))
  {
    hide IsAmbiguousOf, HasAmbiguous, HoldsDeployment, DeploymentKnown, Track;
  }

  // An operation becomes the author of a place by its own successful insertion, and stays it.
  ghost predicate AuthorsSo(lib: Library, op: Op, reply: Reply) {
    forall slot ::
      && (Authored(op, slot) ==> Authored(Resume(lib, op, reply), slot))
      && (Authored(Resume(lib, op, reply), slot) && !Authored(op, slot)
          ==> SlotOf(Awaits(lib, op)) == Some(slot) && reply == Stored(true))
      && (SlotOf(Awaits(lib, op)) == Some(slot) && reply == Stored(true) ==> Authored(Resume(lib, op, reply), slot))
  }

  lemma DispatchAuthors(lib: Library, job: DispatchJob, pc: DispatchPc, reply: Reply)
    ensures AuthorsSo(lib, DispatchOp(job, pc), reply)
  {
    hide DispatchAwaits, DispatchResume, Inserted, SlotOf;
    InsertionEdge(lib, job, pc, reply);
  }

  lemma InsertionEdge(lib: Library, job: DispatchJob, pc: DispatchPc, reply: Reply)
    ensures Inserted(DispatchResume(pc, reply)) <==> Inserted(pc) || (pc.InsertAttempt? && reply == Stored(true))
    ensures SlotOf(DispatchAwaits(lib, job, pc))
      == if pc.InsertAttempt? then Some(AttemptSlot("att-" + job.mandate)) else None
  {
    hide AttemptDigest;
  }

  lemma ResolveAuthors(lib: Library, job: ResolveJob, pc: ResolvePc, reply: Reply)
    requires (Abandoning(pc) ==> job.reason.Some?) && (Accepting(pc) ==> job.reason.None?)
    ensures AuthorsSo(lib, ResolveOp(job, pc), reply)
  {
  }

  lemma DeliverAuthors(lib: Library, job: DeliverJob, pc: DeliverPc, reply: Reply)
    ensures AuthorsSo(lib, DeliverOp(job, pc), reply)
  {
    hide MapOutcome, IsFinalStatus, ObservationNode, ClaimNode, GapNode;
  }

  lemma DecideAuthors(lib: Library, s: Stores, job: DecideJob, pc: DecidePc, c: Choice)
    requires WorkHolds(s, DecideOp(job, pc))
    ensures AuthorsSo(lib, DecideOp(job, pc), Perform(s, DecideAwaits(job, pc), c).1)
  {
    hide Perform, IsDecisionOf;
    PutStores(s, DecideAwaits(job, pc), c);
    InsertOrRead(s, job, pc, c);
  }

  lemma InsertOrRead(s: Stores, job: DecideJob, pc: DecidePc, c: Choice)
    ensures var reply := Perform(s, DecideAwaits(job, pc), c).1;
      && (pc.InsertDecision? ==> reply.Stored?) && (pc.SwapStatus? ==> reply.Swapped?)
      && (pc.Settled? ==> reply.NoReply?) && (pc.AuditDecision? ==> reply.Logged?)
  {
  }

  lemma ProposeAuthors(lib: Library, job: ProposeJob, pc: ProposePc, reply: Reply)
    ensures AuthorsSo(lib, ProposeOp(job, pc), reply)
  {
  }

  lemma OpAuthors(lib: Library, s: Stores, op: Op, c: Choice)
    requires WorkHolds(s, op)
    ensures AuthorsSo(lib, op, Perform(s, Awaits(lib, op), c).1)
  {
    hide Perform, AuthorsSo, AbandonmentFiled, IsDecisionOf, IsAttemptOf;
    match op
    case DispatchOp(job, pc) => DispatchAuthors(lib, job, pc, Perform(s, Awaits(lib, op), c).1);
    case ResolveOp(job, pc) => ResolveAuthors(lib, job, pc, Perform(s, Awaits(lib, op), c).1);
    case DeliverOp(job, pc) => DeliverAuthors(lib, job, pc, Perform(s, Awaits(lib, op), c).1);
    case DecideOp(job, pc) => DecideAuthors(lib, s, job, pc, c);
    case ProposeOp(job, pc) => ProposeAuthors(lib, job, pc, Perform(s, Awaits(lib, op), c).1);
  }

  ghost predicate OneAuthor(w: World) {
    && (forall i :: 0 <= i < |w.ops| ==> WorkHolds(w.s, w.ops[i]))
    && (forall i, slot :: 0 <= i < |w.ops| && Authored(w.ops[i], slot) ==> InStore(w.s, slot))
    && (forall i, j, slot :: 0 <= i < j < |w.ops| && Authored(w.ops[i], slot) ==> !Authored(w.ops[j], slot))
    && (forall slot :: InStore(w.s, slot) ==> exists i :: 0 <= i < |w.ops| && Authored(w.ops[i], slot))
  }

  lemma MoveKeepsAuthor(lib: Library, w: World, i: nat, c: Choice)
    requires OneAuthor(w) && EvidenceOk(lib, w) && i < |w.ops|
    ensures OneAuthor(Apply(lib, w, Move(i, c)))
  {
    hide Perform, Awaits, Resume, Authored, InStore, WorkHolds, Grows, AuthorsSo, OpHolds;
    var op := w.ops[i];
    var a := Awaits(lib, op);
    var (t, reply) := Perform(w.s, a, c);
    var v := World(t, w.ops[i := Resume(lib, op, reply)]);
    PerformGrows(w.s, a, c);
    assert OpHolds(lib, w.s, op);
    WorkNext(lib, w.s, op, c);
    forall j | 0 <= j < |v.ops| ensures WorkHolds(v.s, v.ops[j]) {
      if j != i {
        WorkStays(w.s, t, w.ops[j]);
      }
    }
    OpAuthors(lib, w.s, op, c);
    forall slot ensures Changed(w.s, t, op, v.ops[i], slot) {
      FilledByPut(w.s, a, c, slot);
      ChangeOf(lib, w.s, t, op, reply, slot);
    }
    Reassigned(w, v, i);
  }

  /** One place, before and after a move of this operation. */
  ghost predicate Changed(s: Stores, t: Stores, op: Op, next: Op, slot: Slot) {
    && (InStore(s, slot) ==> InStore(t, slot))
    && (Authored(op, slot) ==> Authored(next, slot))
    && (Authored(next, slot) && !Authored(op, slot) ==> !InStore(s, slot) && InStore(t, slot))
    && (InStore(t, slot) && !InStore(s, slot) ==> Authored(next, slot))
  }

  lemma ChangeOf(lib: Library, s: Stores, t: Stores, op: Op, reply: Reply, slot: Slot)
    requires AuthorsSo(lib, op, reply)
    requires var a := Awaits(lib, op);
      && (InStore(t, slot) && !InStore(s, slot) ==> SlotOf(a) == Some(slot) && reply == Stored(true))
      && (SlotOf(a) == Some(slot) && reply == Stored(true) ==> InStore(t, slot) && !InStore(s, slot))
      && (InStore(s, slot) ==> InStore(t, slot))
    ensures Changed(s, t, op, Resume(lib, op, reply), slot)
  {
    hide Awaits, Resume, Authored, InStore, SlotOf;
  }

  lemma Reassigned(w: World, v: World, i: nat)
    requires OneAuthor(w) && i < |w.ops| && |v.ops| == |w.ops| && v.ops == w.ops[i := v.ops[i]]
    requires forall j :: 0 <= j < |v.ops| ==> WorkHolds(v.s, v.ops[j])
    requires forall slot :: Changed(w.s, v.s, w.ops[i], v.ops[i], slot)
    ensures OneAuthor(v)
  {
    hide Authored, InStore, WorkHolds;
    forall slot | InStore(v.s, slot) ensures exists j :: 0 <= j < |v.ops| && Authored(v.ops[j], slot) {
      assert Changed(w.s, v.s, w.ops[i], v.ops[i], slot);
      if InStore(w.s, slot) {
        var j :| 0 <= j < |w.ops| && Authored(w.ops[j], slot);
        assert Authored(v.ops[j], slot);
      } else {
        assert Authored(v.ops[i], slot);
      }
    }
    forall j, slot | 0 <= j < |v.ops| && Authored(v.ops[j], slot) ensures InStore(v.s, slot) {
      assert Changed(w.s, v.s, w.ops[i], v.ops[i], slot);
    }
    forall j, k, slot | 0 <= j < k < |v.ops| && Authored(v.ops[j], slot) ensures !Authored(v.ops[k], slot) {
      assert Changed(w.s, v.s, w.ops[i], v.ops[i], slot);
    }
  }

  lemma StartsEmptyHanded(s: Stores, op: Op)
    requires AtStart(op)
    ensures WorkHolds(s, op) && forall slot :: !Authored(op, slot)
  {
  }

  lemma StepKeepsAuthor(lib: Library, w: World, step: Step)
    requires OneAuthor(w) && EvidenceOk(lib, w)
    ensures OneAuthor(Apply(lib, w, step))
  {
    hide Exec, Authored, WorkHolds, EvidenceOk;
    match step
    case Issue(_) => IssueKeepsAuthor(lib, w, step);
    case Start(op) =>
      if AtStart(op) {
        StartsEmptyHanded(w.s, op);
        StartKeepsAuthor(w, op);
      }
    case Move(i, c) =>
      if i < |w.ops| {
        MoveKeepsAuthor(lib, w, i, c);
      }
  }

  lemma IssueKeepsAuthor(lib: Library, w: World, step: Step)
    requires OneAuthor(w) && step.Issue?
    ensures OneAuthor(Apply(lib, w, step))
  {
    hide Authored, WorkHolds, Grows;
    StepGrows(lib, w, step);
    var v := Apply(lib, w, step);
    forall j | 0 <= j < |v.ops| ensures WorkHolds(v.s, v.ops[j]) {
      WorkStays(w.s, v.s, w.ops[j]);
    }
    assert forall slot :: InStore(v.s, slot) <==> InStore(w.s, slot);
  }

  lemma StartKeepsAuthor(w: World, op: Op)
    requires OneAuthor(w) && WorkHolds(w.s, op) && forall slot :: !Authored(op, slot)
    ensures OneAuthor(w.(ops := w.ops + [op]))
  {
    hide Authored, InStore, WorkHolds;
    var v := w.(ops := w.ops + [op]);
    forall slot | InStore(v.s, slot) ensures exists j :: 0 <= j < |v.ops| && Authored(v.ops[j], slot) {
      var j :| 0 <= j < |w.ops| && Authored(w.ops[j], slot);
      assert Authored(v.ops[j], slot);
    }
  }

  /** At every moment of every run the places in store are shared out among the operations, one author each. */
  lemma {:induction false} OneAuthorAlways(lib: Library, steps: seq<Step>)
    ensures OneAuthor(Reach(lib, steps))
  {
    hide Apply, EvidenceOk;
    if steps == [] {
      NothingWritten(lib);
    } else {
      var before := steps[..|steps| - 1];
      OneAuthorAlways(lib, before);
      EvidenceAlways(lib, before);
      StepKeepsAuthor(lib, Reach(lib, before), steps[|steps| - 1]);
    }
  }

  lemma NothingWritten(lib: Library)
    ensures OneAuthor(Reach(lib, []))
  {
  }

  /** The record says what its author was called with. */
  ghost predicate WrittenBy(lib: Library, s: Stores, op: Op, slot: Slot)
    requires InStore(s, slot)
  {
    match slot
    case RequestSlot(id) => op.ProposeOp? && op.propose.request == id && IsProposalOf(s.requests[id], op.propose)
    case DecisionSlot(id) =>
      op.DecideOp? && id == "dec-" + op.decide.request && IsDecisionOf(s.decisions[id], op.decide)
    case AttemptSlot(id) =>
      op.DispatchOp? && id == "att-" + op.dispatch.mandate && IsAttemptOf(s.attempts[id], op.dispatch)
    case DeliverySlot(id) => op.DeliverOp? && id == op.deliver.delivery && Recorded(lib, s, op.deliver)
    case ReceiptSlot(id) =>
      match op
      case DeliverOp(job, _) => HasPaperTrail(lib, s, id, job)
      case ResolveOp(job, _) =>
        job.reason.Some? && id == "rcpt-abandoned-" + s.receipts[id].attempt
        && AbandonmentFiled(s, job, s.receipts[id].attempt)
      case _ => false
  }

  lemma AuthorMeans(lib: Library, s: Stores, op: Op, slot: Slot)
    requires InStore(s, slot) && Authored(op, slot) && WorkHolds(s, op) && OpHolds(lib, s, op)
    ensures WrittenBy(lib, s, op, slot)
  {
    hide PaperTrail, IsAttemptOf, IsDecisionOf, AboutIt;
    match op
    case DeliverOp(job, AuditReceipt(a)) => assert AboutIt(s, job, a);
    case _ =>
  }

  /**
   In every run, with any versions and crashes: every request, decision, attempt, receipt and delivery in store was
   written by exactly one operation, and holds what that operation was called with.
   */
  lemma {:induction false} EveryRecordHasOneAuthor(lib: Library, steps: seq<Step>, slot: Slot) returns (i: nat)
    requires InStore(Reach(lib, steps).s, slot)
    ensures var w := Reach(lib, steps);
      && i < |w.ops| && Authored(w.ops[i], slot) && WrittenBy(lib, w.s, w.ops[i], slot)
      && forall j :: 0 <= j < |w.ops| && Authored(w.ops[j], slot) ==> j == i
  {
    hide Reach, Authored, WrittenBy, WorkHolds, OpHolds, InStore;
    OneAuthorAlways(lib, steps);
    EvidenceAlways(lib, steps);
    var w := Reach(lib, steps);
    i :| 0 <= i < |w.ops| && Authored(w.ops[i], slot);
    assert OpHolds(lib, w.s, w.ops[i]);
    AuthorMeans(lib, w.s, w.ops[i], slot);
  }
}
