/** Whose word a receipt is: the one recorded delivery it was produced from, about its own attempt's deployment. */
module Attestation {
  import opened Records
  import opened Stores
  import opened DeliverProgram
  import opened Machine
  import opened Growth
  import opened Lifecycle
  import opened NoLookahead
  import opened MandateLife
  import opened Evidence
  import opened Authorship

  /** The request stored the receipt of attempt a. */
  predicate Produced(op: Op, job: DeliverJob, a: Attempt) {
    op in {DeliverOp(job, AuditReceipt(a)), DeliverOp(job, Handled(ReceiptProduced(ReceiptId(a.id))))}
  }

  /**
   Receipt k and its evidence are those of this delivery and this attempt, field by field. The delivery is on record
   with its digest, and its status is final and about the attempt's own deployment.
   */
  ghost predicate AttestedBy(lib: Library, s: Stores, k: string, job: DeliverJob, a: Attempt) {
    && PaperTrail(lib, s, k, job, a) && AboutIt(s, job, a) && Recorded(lib, s, job) && IsFinalStatus(job.event.state)
    && s.receipts[k].outcome == (if job.event.state == "success" then Succeeded else Failed)
  }

  lemma AttestedStays(lib: Library, s: Stores, t: Stores, k: string, job: DeliverJob, a: Attempt)
    requires Grows(s, t) && AttestedBy(lib, s, k, job, a)
    ensures AttestedBy(lib, t, k, job, a)
  {
    hide PaperTrail, IsStored;
    StoredStays(s, t, a);
    TrailStays(lib, s, t, k, job, a);
    TrailHas(lib, s, k, job, a);
  }

  lemma TrailHas(lib: Library, s: Stores, k: string, job: DeliverJob, a: Attempt)
    requires PaperTrail(lib, s, k, job, a)
    ensures k == ReceiptId(a.id) && k in s.receipts
  {
  }

  // ----- The delivery behind a receipt

  lemma ReceiptIsAttested(lib: Library, s: Stores, job: DeliverJob, a: Attempt, gaps: seq<string>)
    requires DeliverHolds(lib, s, job, InsertReceipt(a, gaps))
    ensures gaps == []
    ensures var r := WebhookReceipt(lib, job, a, []); AttestedBy(lib, Adding(s, r), r.id, job, a)
  {
    hide PaperTrail;
    FinalStatusHasOutcome(job.event.state);
    TrailComplete(lib, s, job, a, gaps);
  }

  // A receipt with a definite outcome comes from the webhook path.
  lemma NewReceipt(lib: Library, s: Stores, op: Op, c: Choice, k: string) returns (job: DeliverJob, a: Attempt)
    requires OpHolds(lib, s, op) && k !in s.receipts
    requires var t := Perform(s, Awaits(lib, op), c).0; k in t.receipts && t.receipts[k].outcome != Unknown
    ensures var (t, next) := Exec(lib, s, op, c);
      next == DeliverOp(job, AuditReceipt(a)) && AttestedBy(lib, t, k, job, a)
    ensures op == DeliverOp(job, InsertReceipt(a, []))
  {
    hide AttestedBy, MapOutcome, ObservationNode, ClaimNode, GapNode, IsFinalStatus, DeliverHolds;
    ReceiptComesByPut(s, Awaits(lib, op), c, k);
    match op
    case DeliverOp(j, InsertReceipt(x, gaps)) =>
      job, a := j, x;
      ReceiptIsAttested(lib, s, job, a, gaps);
    case _ =>
  }

  // A receipt's producer goes on at most to say so.
  lemma ProducedStays(lib: Library, w: World, step: Step, i: nat, job: DeliverJob, a: Attempt)
    requires i < |w.ops| && Produced(w.ops[i], job, a)
    ensures var v := Apply(lib, w, step); i < |v.ops| && Produced(v.ops[i], job, a)
  {
  }

  /**
   In every run, with any versions: a receipt with a definite outcome was produced by exactly one webhook request, from
   a delivery on record, and its status is about the deployment its own attempt held when it was looked up.
   */
  lemma {:induction false} OutcomeIsAttested(lib: Library, steps: seq<Step>, k: string)
    returns (i: nat, job: DeliverJob, a: Attempt)
    requires k in Reach(lib, steps).s.receipts && Reach(lib, steps).s.receipts[k].outcome != Unknown
    ensures var w := Reach(lib, steps);
      && i < |w.ops| && Produced(w.ops[i], job, a) && AttestedBy(lib, w.s, k, job, a)
      && forall j :: 0 <= j < |w.ops| && Authored(w.ops[j], ReceiptSlot(k)) ==> j == i
  {
    hide Apply, Exec, AttestedBy, OpHolds, OneAuthor, Authored;
    var n := |steps| - 1;
    var w, step := Reach(lib, steps[..n]), steps[n];
    StepGrows(lib, w, step);
    if k in w.s.receipts {
      i, job, a := OutcomeIsAttested(lib, steps[..n], k);
      ProducedStays(lib, w, step, i, job, a);
      AttestedStays(lib, w.s, Reach(lib, steps).s, k, job, a);
    } else {
      EvidenceAlways(lib, steps[..n]);
      i, job, a := StepProduces(lib, w, step, k);
    }
    OneAuthorAlways(lib, steps);
    AttestedMeansStored(lib, Reach(lib, steps).s, k, job, a);
    ProducerNamed(Reach(lib, steps), i, job, a, k);
  }

  lemma ProducerNamed(w: World, i: nat, job: DeliverJob, a: Attempt, k: string)
    requires OneAuthor(w) && i < |w.ops| && Produced(w.ops[i], job, a) && k == ReceiptId(a.id)
    ensures forall j :: 0 <= j < |w.ops| && Authored(w.ops[j], ReceiptSlot(k)) ==> j == i
  {
    hide WorkHolds, InStore;
    assert Authored(w.ops[i], ReceiptSlot(k));
  }

  lemma StepProduces(lib: Library, w: World, step: Step, k: string) returns (i: nat, job: DeliverJob, a: Attempt)
    requires EvidenceOk(lib, w) && k !in w.s.receipts
    requires var s := Apply(lib, w, step).s; k in s.receipts && s.receipts[k].outcome != Unknown
    ensures var v := Apply(lib, w, step);
      && i < |w.ops| && w.ops[i] == DeliverOp(job, InsertReceipt(a, [])) && |v.ops| == |w.ops|
      && Produced(v.ops[i], job, a) && AttestedBy(lib, v.s, k, job, a)
  {
    hide Perform, Awaits, Resume, AttestedBy, OpHolds;
    i := step.who;
    assert OpHolds(lib, w.s, w.ops[i]);
    job, a := NewReceipt(lib, w.s, w.ops[i], step.choice, k);
  }

  // ----- Without lookahead the attempt keeps that deployment

  ghost predicate CarriesStored(s: Stores, op: Op) {
    op.DeliverOp? && CarriedAttempt(op.wpc).Some? ==>
      var a := CarriedAttempt(op.wpc).value;
      a.id in s.attempts && a.deployment.Some? && s.attempts[a.id].deployment == a.deployment
  }

  lemma CarriesNext(lib: Library, s: Stores, op: Op, c: Choice)
    requires CarriesStored(s, op) && Keyed(s.attempts)
    ensures var (t, next) := Exec(lib, s, op, c); op.DeliverOp? ==> CarriesStored(t, next)
  {
    hide Perform, Keyed, MapOutcome, IsFinalStatus, GapNode, ObservationNode, ClaimNode, WebhookReceipt;
    if op.DeliverOp? {
      var a := DeliverAwaits(lib, op.deliver, op.wpc);
      if CarriedAttempt(op.wpc).Some? {
        OnlyIdsWriteIds(s, a, c, CarriedAttempt(op.wpc).value.id);
      }
      if a.FindByDeployment? {
        LookupFinds(s, a, c);
      }
      var (t, reply) := Perform(s, a, c);
      var next := DeliverResume(lib, op.deliver, op.wpc, reply);
      assert CarriedAttempt(op.wpc).None? && CarriedAttempt(next).Some? ==> op.wpc.LookUpAttempt?;
      assert CarriesStored(t, DeliverOp(op.deliver, next));
    }
  }

  lemma LookupFinds(s: Stores, a: Await, c: Choice)
    requires Keyed(s.attempts) && a.FindByDeployment?
    ensures var (t, reply) := Perform(s, a, c);
      reply.GotAttempt? && reply.attempt.Some? ==>
        var x := reply.attempt.value;
        t == s && x.id in s.attempts && s.attempts[x.id] == x && x.deployment == Some(a.deployment)
  {
  }

  lemma {:induction false} CarriesAlways(lib: Library, steps: seq<Step>, i: nat)
    requires PoliteRun(lib, steps) && i < |Reach(lib, steps).ops|
    ensures CarriesStored(Reach(lib, steps).s, Reach(lib, steps).ops[i])
  {
    hide Perform, Awaits, Resume, Joint, PoliteWorld, Grows;
    var n := |steps| - 1;
    var w, step := Reach(lib, steps[..n]), steps[n];
    PoliteRunPrefix(lib, steps, n);
    JointAlways(lib, steps[..n]);
    StepOp(lib, w, step, i);
    if i < |w.ops| {
      CarriesAlways(lib, steps[..n], i);
      JointIsKeyed(w);
      if step.Move? && step.who == i {
        CarriesNext(lib, w.s, w.ops[i], step.choice);
        SameKind(lib, w.ops[i], Perform(w.s, Awaits(lib, w.ops[i]), step.choice).1);
      } else if w.ops[i].DeliverOp? && CarriedAttempt(w.ops[i].wpc).Some? {
        DeploymentStays(lib, w, step, CarriedAttempt(w.ops[i].wpc).value.id);
      }
    }
  }

  lemma SameKind(lib: Library, op: Op, reply: Reply)
    ensures Resume(lib, op, reply).DeliverOp? <==> op.DeliverOp?
  {
  }

  /** Without lookahead the attempt still holds the deployment that its receipt's status is about. */
  lemma {:induction false} ReceiptKeepsDeployment(lib: Library, steps: seq<Step>, k: string)
    returns (i: nat, job: DeliverJob, a: Attempt)
    requires PoliteRun(lib, steps)
    requires k in Reach(lib, steps).s.receipts && Reach(lib, steps).s.receipts[k].outcome != Unknown
    ensures var w := Reach(lib, steps);
      && i < |w.ops| && Produced(w.ops[i], job, a) && AttestedBy(lib, w.s, k, job, a)
      && w.s.attempts[a.id].deployment == Some(job.event.deployment)
  {
    hide Apply, Exec, AttestedBy, OpHolds, Joint, PoliteWorld;
    var n := |steps| - 1;
    var w, step := Reach(lib, steps[..n]), steps[n];
    StepGrows(lib, w, step);
    PoliteRunPrefix(lib, steps, n);
    JointAlways(lib, steps[..n]);
    if k in w.s.receipts {
      i, job, a := ReceiptKeepsDeployment(lib, steps[..n], k);
      ProducedStays(lib, w, step, i, job, a);
      AttestedStays(lib, w.s, Reach(lib, steps).s, k, job, a);
      AttestedMeansStored(lib, w.s, k, job, a);
    } else {
      EvidenceAlways(lib, steps[..n]);
      i, job, a := StepProduces(lib, w, step, k);
      CarriesAlways(lib, steps[..n], i);
      assert CarriesStored(w.s, w.ops[i]);
      AttestedMeansStored(lib, Reach(lib, steps).s, k, job, a);
    }
    DeploymentStays(lib, w, step, a.id);
  }

  lemma AttestedMeansStored(lib: Library, s: Stores, k: string, job: DeliverJob, a: Attempt)
    requires AttestedBy(lib, s, k, job, a)
    ensures k == ReceiptId(a.id) && a.id in s.attempts && a.deployment == Some(job.event.deployment)
  {
    hide IsObservation, IsClaim, SaysWord;
  }
}
