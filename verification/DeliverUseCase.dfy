/**
 One authenticated webhook request over the in-memory stores: `ingest`
 (crates/piteka-application/src/webhook_ingestion.rs), the gate of `handle_webhook`
 (apps/piteka-api/src/webhook.rs), then `process` and `produce_receipt_from_webhook`
 (crates/piteka-application/src/receipt_production.rs).
 */
module DeliverUseCase {
  import opened Text
  import opened Records
  import opened Stores
  import opened MemoryStores
  import opened DeliverProgram
  import opened Machine
  import opened Runs
  import opened Ports
  import opened Evidence

  /** What the HTTP response tells. */
  datatype Ingestion = Malformed | DuplicateDelivery | Processed(outOfOrder: bool, digest: string)

  function AfterIngestion(job: DeliverJob, i: Ingestion): DeliverPc {
    if !i.Processed? then Handled(Duplicate)
    else if IsFinalStatus(job.event.state) then LookUpAttempt
    else AuditDeferred
  }

  /**
   A blank delivery id is refused before any store is touched. A new delivery is flagged, in the answer and in the
   audit log, exactly if an earlier arrival for its deployment has a later provider time.
   */
  method Ingest(b: Backend, lib: Library, job: DeliverJob) returns (i: Ingestion)
    requires b.Valid()
    modifies b.Repr()
    ensures b.Valid()
    ensures i.Malformed? <==> IsBlank(job.delivery)
    ensures i.Malformed? ==> b.View() == old(b.View())
    ensures !i.Malformed? ==>
      Leads(lib, old(b.View()), DeliverOp(job, LookUpDelivery), b.View(), DeliverOp(job, AfterIngestion(job, i)), None)
    ensures i.Processed? ==> i.digest == lib.sha(job.event.raw)
    ensures i.Processed? ==>
      (i.outOfOrder <==> OutOfOrder(old(b.tracker.history), job.event.deployment, job.event.updatedAt))
    ensures i.Processed? ==>
      b.View().audit == old(b.View()).audit
        + [Audit(None, if i.outOfOrder then "webhook.ingested.out_of_order" else "webhook.ingested", "accepted",
                 job.delivery)]
    ensures b.tracker.history == old(b.tracker.history)
      + if i.Processed? then [Arrival(job.event.deployment, job.event.updatedAt)] else []
  {
    hide Leads, Perform, OutOfOrder, Backend.Valid, Backend.View;
    if IsBlank(job.delivery) {
      return Malformed;
    }
    ghost var s, op := b.View(), DeliverOp(job, LookUpDelivery);
    Standing(lib, s, op, None);
    var existing := b.GetDelivery(job.delivery);
    Onward(lib, s, op, s, op, ANY, None);
    if existing.Some? {
      return DuplicateDelivery;
    }
    var delivery := Delivery("github", lib.sha(job.event.raw), job.now);
    var recorded := b.PutDelivery(job.delivery, delivery);
    OnlyLogWritesLog(s, Await.PutDelivery(job.delivery, delivery), ANY);
    Onward(lib, s, op, s, DeliverOp(job, RecordDelivery), ANY, None);
    if !recorded {
      return DuplicateDelivery;
    }
    var late := TrackArrival(b, lib, job, s);
    return Processed(late, delivery.rawDigest);
  }

  // The arrival in the order of provider times, and its audit event.
  method TrackArrival(b: Backend, lib: Library, job: DeliverJob, ghost s: Stores) returns (late: bool)
    requires b.Valid() && Leads(lib, s, DeliverOp(job, LookUpDelivery), b.View(), DeliverOp(job, TrackOrder), None)
    modifies b.Repr()
    ensures b.Valid()
    ensures Leads(lib, s, DeliverOp(job, LookUpDelivery), b.View(),
                  DeliverOp(job, AfterIngestion(job, Processed(late, ""))), None)
    ensures late <==> OutOfOrder(old(b.tracker.history), job.event.deployment, job.event.updatedAt)
    ensures b.View().audit == old(b.View()).audit
      + [Audit(None, if late then "webhook.ingested.out_of_order" else "webhook.ingested", "accepted", job.delivery)]
    ensures b.tracker.history == old(b.tracker.history) + [Arrival(job.event.deployment, job.event.updatedAt)]
  {
    hide Leads, Perform, OutOfOrder, Backend.Valid, Backend.View;
    ghost var op, at := DeliverOp(job, LookUpDelivery), b.View();
    late := b.TrackTime(job.event.deployment, job.event.updatedAt);
    OnlyLogWritesLog(at, Await.TrackTime(job.event.deployment, job.event.updatedAt), ANY);
    Onward(lib, s, op, at, DeliverOp(job, TrackOrder), ANY, None);
    at := b.View();
    var word := if late then "webhook.ingested.out_of_order" else "webhook.ingested";
    b.Log(Audit(None, word, "accepted", job.delivery));
    OnlyLogWritesLog(at, Await.Log(Audit(None, word, "accepted", job.delivery)), ANY);
    Onward(lib, s, op, at, DeliverOp(job, AuditIngest(late)), ANY, None);
  }

  // A webhook request leaves the attempts alone.
  lemma DeliverSparesAttempts(lib: Library, s: Stores, job: DeliverJob, pc: DeliverPc, c: Choice)
    ensures Perform(s, DeliverAwaits(lib, job, pc), c).0.attempts == s.attempts
  {
    hide ObservationNode, ClaimNode, GapNode, WebhookReceipt;
  }

  lemma {:induction false} DrivePapers(lib: Library, s: Stores, job: DeliverJob, pc: DeliverPc, cs: seq<Choice>)
    requires KeyedById(s.attempts) && PapersHold(lib, s, job, pc)
    ensures var (t, next) := Drive(lib, s, DeliverOp(job, pc), cs);
      t.attempts == s.attempts && next.DeliverOp? && next.deliver == job && PapersHold(lib, t, job, next.wpc)
  {
    hide PapersHold, Perform, DeliverAwaits, DeliverResume;
    if cs != [] {
      var (t, next) := Drive(lib, s, DeliverOp(job, pc), cs[..|cs| - 1]);
      DrivePapers(lib, s, job, pc, cs[..|cs| - 1]);
      PapersNext(lib, t, job, next.wpc, cs[|cs| - 1]);
      DeliverSparesAttempts(lib, t, job, next.wpc, cs[|cs| - 1]);
    }
  }

  lemma LeadsToPapers(lib: Library, s: Stores, job: DeliverJob, t: Stores, k: string)
    requires KeyedById(s.attempts)
    requires Leads(lib, s, DeliverOp(job, LookUpAttempt), t, DeliverOp(job, Handled(ReceiptProduced(k))), None)
    ensures HasPaperTrail(lib, t, k, job)
  {
    hide Exec, HasPaperTrail, IsStored;
    var cs :| Drive(lib, s, DeliverOp(job, LookUpAttempt), cs) == (t, DeliverOp(job, Handled(ReceiptProduced(k))));
    DrivePapers(lib, s, job, LookUpAttempt, cs);
  }

  /** For any status: the receipt it reports is in store, and so are the papers that go with this event. */
  method ProduceReceipt(b: Backend, lib: Library, job: DeliverJob) returns (result: DeliverResult)
    requires b.Valid()
    modifies b.Repr()
    ensures b.Valid()
    ensures Leads(lib, old(b.View()), DeliverOp(job, LookUpAttempt), b.View(), DeliverOp(job, Handled(result)), None)
    ensures result.ReceiptProduced? ==> HasPaperTrail(lib, b.View(), result.receipt, job)
    ensures result in {Skipped, ProductionFailed} || result.ReceiptProduced?
  {
    hide Leads, Backend.Valid, Backend.View, KeyedById, HasPaperTrail;
    BackendIsKeyed(b);
    result := FindAndFile(b, lib, job);
    if result.ReceiptProduced? {
      LeadsToPapers(lib, old(b.View()), job, b.View(), result.receipt);
    }
  }

  method FindAndFile(b: Backend, lib: Library, job: DeliverJob) returns (result: DeliverResult)
    requires b.Valid()
    modifies b.Repr()
    ensures b.Valid() && (result in {Skipped, ProductionFailed} || result.ReceiptProduced?)
    ensures Leads(lib, old(b.View()), DeliverOp(job, LookUpAttempt), b.View(), DeliverOp(job, Handled(result)), None)
  {
    hide Leads, Perform, Backend.Valid, Backend.View, MapOutcome;
    ghost var s, op := b.View(), DeliverOp(job, LookUpAttempt);
    Standing(lib, s, op, None);
    var found := b.ByDeployment(job.event.deployment);
    Onward(lib, s, op, s, op, Choice(if found.Some? then found.value.id else "", None), None);
    if found.None? {
      return Skipped;
    }
    if MapOutcome(job.event.state) == Unknown {
      result := FileGap(b, lib, job, found.value, s);
    } else {
      result := FileReceipt(b, lib, job, found.value, [], s);
    }
  }

  // A status without a definite outcome is filed with a gap in place of the target's outcome.
  method FileGap(b: Backend, lib: Library, job: DeliverJob, a: Attempt, ghost s: Stores) returns (result: DeliverResult)
    requires b.Valid() && Leads(lib, s, DeliverOp(job, LookUpAttempt), b.View(), DeliverOp(job, InsertGap(a)), None)
    modifies b.Repr()
    ensures b.Valid() && (result == ProductionFailed || result.ReceiptProduced?)
    ensures Leads(lib, s, DeliverOp(job, LookUpAttempt), b.View(), DeliverOp(job, Handled(result)), None)
  {
    hide Leads, Perform, Backend.Valid, Backend.View, GapNode;
    ghost var at := b.View();
    var gap := GapNode(lib, a, job.now);
    var ok := b.PutNode(gap);
    Onward(lib, s, DeliverOp(job, LookUpAttempt), at, DeliverOp(job, InsertGap(a)), ANY, None);
    if !ok {
      return ProductionFailed;
    }
    result := FileReceipt(b, lib, job, a, [gap.id], s);
  }

  // Evidence first, then the receipt that names it.
  method FileReceipt(b: Backend, lib: Library, job: DeliverJob, a: Attempt, gaps: seq<string>, ghost s: Stores)
    returns (result: DeliverResult)
    requires b.Valid() && Leads(lib, s, DeliverOp(job, LookUpAttempt), b.View(),
                                DeliverOp(job, InsertObservation(a, gaps)), None)
    modifies b.Repr()
    ensures b.Valid() && (result == ProductionFailed || result.ReceiptProduced?)
    ensures Leads(lib, s, DeliverOp(job, LookUpAttempt), b.View(), DeliverOp(job, Handled(result)), None)
  {
    hide Leads, Perform, Backend.Valid, Backend.View, WebhookReceipt, ObservationNode, ClaimNode;
    ghost var op := DeliverOp(job, LookUpAttempt);
    ghost var at := b.View();
    var ok := b.PutNode(ObservationNode(lib, a, job.event, job.now));
    Onward(lib, s, op, at, DeliverOp(job, InsertObservation(a, gaps)), ANY, None);
    if !ok {
      return ProductionFailed;
    }
    at := b.View();
    ok := b.PutNode(ClaimNode(lib, a, MapOutcome(job.event.state), job.now));
    Onward(lib, s, op, at, DeliverOp(job, InsertClaim(a, gaps)), ANY, None);
    if !ok {
      return ProductionFailed;
    }
    result := StoreReceipt(b, lib, job, a, gaps, s);
  }

  method StoreReceipt(b: Backend, lib: Library, job: DeliverJob, a: Attempt, gaps: seq<string>, ghost s: Stores)
    returns (result: DeliverResult)
    requires b.Valid() && Leads(lib, s, DeliverOp(job, LookUpAttempt), b.View(), DeliverOp(job, InsertReceipt(a, gaps)),
                                None)
    modifies b.Repr()
    ensures b.Valid() && (result == ProductionFailed || result.ReceiptProduced?)
    ensures Leads(lib, s, DeliverOp(job, LookUpAttempt), b.View(), DeliverOp(job, Handled(result)), None)
  {
    hide Leads, Perform, Backend.Valid, Backend.View, WebhookReceipt;
    ghost var op, at := DeliverOp(job, LookUpAttempt), b.View();
    var ok := b.PutReceipt(WebhookReceipt(lib, job, a, gaps));
    Onward(lib, s, op, at, DeliverOp(job, InsertReceipt(a, gaps)), ANY, None);
    if !ok {
      return ProductionFailed;
    }
    at := b.View();
    b.Log(Audit(None, "receipt.produced", OutcomeText(MapOutcome(job.event.state)), a.mandate));
    Onward(lib, s, op, at, DeliverOp(job, AuditReceipt(a)), ANY, None);
    return ReceiptProduced(ReceiptId(a.id));
  }

  /**
   A new delivery goes on to the processor, whose result is not part of the response. The response tells a blank id, a
   duplicate, or a new delivery with its digest and whether it came out of order.
   */
  method HandleWebhook(b: Backend, lib: Library, job: DeliverJob)
    returns (response: Ingestion, ghost result: DeliverResult)
    requires b.Valid()
    modifies b.Repr()
    ensures b.Valid()
    ensures response.Malformed? <==> IsBlank(job.delivery)
    ensures response.Malformed? <==> !AtStart(DeliverOp(job, LookUpDelivery))
    ensures response.Malformed? ==> b.View() == old(b.View())
    ensures !response.Malformed? ==>
      && Leads(lib, old(b.View()), DeliverOp(job, LookUpDelivery), b.View(), DeliverOp(job, Handled(result)), None)
      && (response.DuplicateDelivery? <==> result == Duplicate)
    ensures response.Processed? ==>
      && response.digest == lib.sha(job.event.raw)
      && (response.outOfOrder <==> OutOfOrder(old(b.tracker.history), job.event.deployment, job.event.updatedAt))
      && (result == Deferred <==> !IsFinalStatus(job.event.state))
  {
    hide Leads, Perform, OutOfOrder, HasPaperTrail, Backend.Valid, Backend.View;
    ghost var s, op := b.View(), DeliverOp(job, LookUpDelivery);
    response := Ingest(b, lib, job);
    result := Duplicate;
    if response.Processed? {
      ghost var at := b.View();
      if IsFinalStatus(job.event.state) {
        var outcome := ProduceReceipt(b, lib, job);
        result := outcome;
        LeadsOn(lib, s, op, at, DeliverOp(job, LookUpAttempt), b.View(), DeliverOp(job, Handled(outcome)), None);
      } else {
        b.Log(Audit(None, "webhook.status_non_terminal", "deferred", job.delivery));
        Onward(lib, s, op, at, DeliverOp(job, AuditDeferred), ANY, None);
        result := Deferred;
      }
    }
  }
}
