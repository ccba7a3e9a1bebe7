/** What callers that look ahead can do, as concrete runs from empty stores. */
module Lookahead {
  import Text
  import opened Records
  import opened Stores
  import opened DispatchProgram
  import opened ResolveProgram
  import opened DeliverProgram
  import opened DecideProgram
  import opened Machine
  import opened Growth
  import opened AnyVersion
  import opened Runs
  import opened Scenarios

  // ----- AlreadyConsumed

  lemma SwapInPrefix(lib: Library, steps: seq<Step>, c: nat, j: nat, m: string)
    requires j < c <= |steps|
    ensures SwapsStored(lib, steps[..c], j, m) <==> SwapsStored(lib, steps, j, m)
  {
    hide Reach, Awaits;
    assert steps[..c][..j] == steps[..j];
  }

  lemma CompletingMove(lib: Library, s: Stores, job: DispatchJob, d: int, c: Choice)
    requires job.mandate in s.mandates
    ensures Exec(lib, s, DispatchOp(job, Consume(d)), c).1 == DispatchOp(job, Finished(AlreadyConsumed))
      <==> s.mandates[job.mandate].version != job.expected + 1
  {
  }

  /**
   Exactly when a dispatch gets `AlreadyConsumed`, in any run: when between its winning swap and its completing one
   somebody swapped the mandate with the version it then had.
   */
  lemma {:induction false} AlreadyConsumedIffSwapped(lib: Library, steps: seq<Step>, won: nat, c: nat, i: nat,
                                                     job: DispatchJob, d: int)
    requires WonReservation(lib, steps, won, i, job) && won < c && MovesFrom(lib, steps, c, i, job, Consume(d))
    ensures i < |Reach(lib, steps[..c + 1]).ops|
    ensures Reach(lib, steps[..c + 1]).ops[i] == DispatchOp(job, Finished(AlreadyConsumed))
      <==> exists j :: won < j < c && SwapsStored(lib, steps, j, job.mandate)
  {
    hide Reach, Exec, SwapsStored;
    var m := job.mandate;
    var w := Reach(lib, steps[..c]);
    assert steps[..c + 1] == steps[..c] + [steps[c]] && steps[..c][..won + 1] == steps[..won + 1];
    ReachSnoc(lib, steps[..c], steps[c]);
    RecordStaysIffNotSwapped(lib, steps[..c], won + 1, m);
    RunGrowsBetween(lib, steps, won + 1, c);
    assert Newer(Reach(lib, steps[..won + 1]).s.mandates[m], w.s.mandates[m]);
    forall j | 0 <= j < c ensures SwapsStored(lib, steps[..c], j, m) <==> SwapsStored(lib, steps, j, m) {
      SwapInPrefix(lib, steps, c, j, m);
    }
    CompletingMove(lib, w.s, job, d, steps[c].choice);
  }

  /**
   A second dispatch that expects version 2 takes a reserved mandate from the first, which then gets
   `AlreadyConsumed`.
   */
  lemma LookaheadGetsAlreadyConsumed(lib: Library) returns (steps: seq<Step>)
    ensures |Reach(lib, steps).ops| == 4
    ensures Reach(lib, steps).ops[2] == DispatchOp(Job("m", 1), Finished(AlreadyConsumed))
    ensures Reach(lib, steps).ops[3] == DispatchOp(Job("m", 2), Finished(AttemptExists))
    ensures Reach(lib, steps).s.mandates == map["m" := Mandate(3, Reserved)] && |Reach(lib, steps).s.provider| == 1
  {
    hide Leads, Reach;
    var first, second := DispatchOp(Job("m", 1), CheckRequest), DispatchOp(Job("m", 2), CheckRequest);
    steps := ApprovedRun(lib);
    steps := Begin(lib, steps, first);
    var s1 := Reserves(lib, Desktop(APPROVED), Job("m", 1), Some(7));
    steps := Continue(lib, steps, 2, s1, DispatchOp(Job("m", 1), MarkDispatching), Some(7));
    steps := Begin(lib, steps, second);
    var s2 := Reserves(lib, s1, Job("m", 2), None);
    steps := Continue(lib, steps, 3, s2, DispatchOp(Job("m", 2), Finished(AttemptExists)), None);
    var s3 := Calls(lib, s2, Job("m", 1), Some(7));
    steps := Continue(lib, steps, 2, s3, DispatchOp(Job("m", 1), MarkAccepted(7)), Some(7));
    var s4 := Accepts(lib, s3, Job("m", 1), 7);
    steps := Continue(lib, steps, 2, s4, DispatchOp(Job("m", 1), Consume(7)), Some(7));
    ConsumeConflicts(lib, s4, Job("m", 1), 7);
    steps := Continue(lib, steps, 2, s4, DispatchOp(Job("m", 1), Finished(AlreadyConsumed)), Some(7));
  }

  // ----- A consumed mandate is reserved again

  /**
   "Consumed is final" needs the hypothesis: a dispatch that passes the current version of a consumed
   mandate puts it back to reserved, before its duplicate attempt is refused.
   */
  lemma LookaheadReopensConsumed(lib: Library) returns (before: seq<Step>, after: seq<Step>)
    ensures before <= after
    ensures Reach(lib, before).s.mandates == map["m" := Mandate(3, Consumed)]
    ensures Reach(lib, after).s.mandates == map["m" := Mandate(4, Reserved)]
    ensures Reach(lib, after).s.provider == Reach(lib, before).s.provider
  {
    hide Leads, Reach;
    before := ApprovedRun(lib);
    before := Dispatches(lib, before, Job("m", 1), 7);
    after := Begin(lib, before, DispatchOp(Job("m", 3), CheckRequest));
    var t := Reserves(lib, Reach(lib, before).s, Job("m", 3), None);
    after := Continue(lib, after, 3, t, DispatchOp(Job("m", 3), Finished(AttemptExists)), None);
  }

  // ----- A rejected request is approved

  const LATE_APPROVAL := DecideJob(Approve, "r", "approver", None, 2, 0)
  const REJECTION := DecideJob(Reject, "r", "rejecter", None, 1, 0)

  /** An approval that read the request as pending and expects version 2 approves it after its rejection. */
  lemma LookaheadApprovesRejected(lib: Library) returns (before: seq<Step>, after: seq<Step>)
    ensures before <= after
    ensures Reach(lib, before).s.requests == map["r" := PENDING.(status := Rejected, version := 2)]
    ensures Reach(lib, after).s.requests == map["r" := PENDING.(status := Approved, version := 3)]
    ensures DecisionId("r") in Reach(lib, after).s.decisions && !Reach(lib, after).s.decisions[DecisionId("r")].approved
  {
    hide Leads, Reach;
    before := ProposedRun(lib);
    var s := Desktop(PENDING);
    before := Begin(lib, before, DecideOp(LATE_APPROVAL, ReadRequest));
    Reads(lib, s, LATE_APPROVAL);
    before := Continue(lib, before, 1, s, DecideOp(LATE_APPROVAL, SwapStatus(1)), None);
    before := Begin(lib, before, DecideOp(REJECTION, ReadRequest));
    Reads(lib, s, REJECTION);
    before := Continue(lib, before, 2, s, DecideOp(REJECTION, SwapStatus(1)), None);
    var s1 := Decides(lib, s, REJECTION, 1);
    before := Continue(lib, before, 2, s1, DecideOp(REJECTION, InsertDecision), None);
    var s2 := Files(lib, s1, REJECTION);
    before := Continue(lib, before, 2, s2, DecideOp(REJECTION, AuditDecision), None);
    var s3 := Decides(lib, s2, LATE_APPROVAL, 1);
    after := Continue(lib, before, 1, s3, DecideOp(LATE_APPROVAL, InsertDecision), None);
  }

  // ----- A consumed mandate is abandoned, and has two receipts

  const RECONCILIATION := ResolveJob("m", "operator", 3, None, 0)
  const ABANDONMENT := ResolveJob("m", "operator", 4, Some("reason"), 0)
  const SUCCESS := DeliverJob("delivery", Event(9, "success", None, None, 0, "raw"), 0)

  lemma NotBlank(s: string)
    requires s != "" && 'a' <= s[0] <= 'z'
    ensures !Text.IsBlank(s)
  {
    assert s[0] in s;
  }

  lemma Admissions()
    ensures Admitted(RECONCILIATION) && Admitted(ABANDONMENT) && AtStart(DeliverOp(SUCCESS, LookUpDelivery))
  {
    NotBlank("operator");
    NotBlank("reason");
    NotBlank("delivery");
  }

  /** One mandate quarantined at version 3 with its ambiguous attempt. */
  predicate InQuarantine(s: Stores, a: Attempt) {
    && s.mandates == map["m" := Mandate(3, Quarantined)] && s.attempts == map[a.id := a] && a.id == AttemptId("m")
    && a.mandate == "m" && a.state == OutcomeAmbiguous && a.deployment == None
    && s.receipts == map[] && s.nodes == map[] && s.deliveries == map[]
  }

  lemma QuarantinedRun(lib: Library) returns (steps: seq<Step>, a: Attempt)
    ensures |Reach(lib, steps).ops| == 3 && InQuarantine(Reach(lib, steps).s, a)
  {
    hide Leads, Reach;
    steps := ApprovedRun(lib);
    steps := Begin(lib, steps, DispatchOp(Job("m", 1), CheckRequest));
    var s1 := Reserves(lib, Desktop(APPROVED), Job("m", 1), None);
    steps := Continue(lib, steps, 2, s1, DispatchOp(Job("m", 1), MarkDispatching), None);
    var s2 := Calls(lib, s1, Job("m", 1), None);
    steps := Continue(lib, steps, 2, s2, DispatchOp(Job("m", 1), MarkAmbiguous), None);
    var s3 := Quarantines(lib, s2, Job("m", 1));
    steps := Continue(lib, steps, 2, s3, DispatchOp(Job("m", 1), AuditQuarantine), None);
    a := s3.attempts[AttemptId("m")];
  }

  /**
   An abandonment that read the quarantined record and expects version 4 overwrites a mandate that was reconciled
   as consumed meanwhile, and adds its receipt to the one the webhook stored.
   */
  lemma LookaheadAbandonsConsumed(lib: Library) returns (before: seq<Step>, after: seq<Step>)
    requires KeepsApart(lib)
    ensures before <= after
    ensures Reach(lib, before).s.mandates == map["m" := Mandate(4, Consumed)]
    ensures Reach(lib, after).s.mandates == map["m" := Mandate(5, Abandoned)]
    ensures var web, gone := ReceiptId(AttemptId("m")), AbandonedReceiptId(AttemptId("m"));
      var receipts := Reach(lib, after).s.receipts;
      && web in receipts && gone in receipts && web != gone
      && receipts[web].mandate == receipts[gone].mandate == "m"
      && receipts[web].outcome == Succeeded && receipts[gone].outcome == Unknown
  {
    hide Leads, Reach, InQuarantine, MapOutcome, WebhookReceipt, UnknownReceipt, ReceiptId, AbandonedReceiptId;
    var start, a := QuarantinedRun(lib);
    var resolved := BothResolve(lib, start, a);
    var s;
    before, s := WebhookArrives(lib, resolved, a);
    ReceiptIdsApart("m", AttemptId("m"));
    var t := Abandons(lib, s, ABANDONMENT, Mandate(3, Quarantined), a);
    after := Continue(lib, before, 3, t, ResolveOp(ABANDONMENT, AuditAbandoned(a, 5)), None);
    TwoReceipts(lib, a);
  }

  lemma TwoReceipts(lib: Library, a: Attempt)
    requires a.id == AttemptId("m") && a.mandate == "m"
    ensures WebhookReceipt(lib, SUCCESS, a, []).mandate == UnknownReceipt(ABANDONMENT, a).mandate == "m"
    ensures WebhookReceipt(lib, SUCCESS, a, []).outcome == Succeeded
      && UnknownReceipt(ABANDONMENT, a).outcome == Unknown
  {
    FinalStatusHasOutcome("success");
  }

  // The world in which the abandonment is about to swap what the reconciliation consumed.
  ghost predicate Reconciled(w: World, a: Attempt) {
    && |w.ops| == 5 && w.ops[3] == ResolveOp(ABANDONMENT, SwapResolved(Mandate(3, Quarantined), a, 0))
    && w.s.mandates == map["m" := Mandate(4, Consumed)] && a.id == AttemptId("m") && a.mandate == "m"
    && w.s.attempts == map[a.id := a.(state := ReconciledAccepted, deployment := Some(9))]
    && w.s.receipts == map[] && w.s.nodes == map[] && w.s.deliveries == map[]
  }

  lemma WebhookArrives(lib: Library, steps: seq<Step>, a: Attempt) returns (longer: seq<Step>, s: Stores)
    requires KeepsApart(lib) && Reconciled(Reach(lib, steps), a)
    ensures steps <= longer && s == Reach(lib, longer).s && |Reach(lib, longer).ops| == 6
    ensures Reach(lib, longer).ops[3] == Reach(lib, steps).ops[3]
    ensures s.mandates == map["m" := Mandate(4, Consumed)] && a.id in s.attempts
    ensures s.receipts == map[ReceiptId(a.id) := WebhookReceipt(lib, SUCCESS, a, [])]
  {
    hide Leads, Reach, MapOutcome, WebhookReceipt, ObservationNode, ClaimNode;
    Admissions();
    FinalStatusHasOutcome("success");
    var b := a.(state := ReconciledAccepted, deployment := Some(9));
    longer := Begin(lib, steps, DeliverOp(SUCCESS, LookUpDelivery));
    var s1 := Ingests(lib, Reach(lib, steps).s, SUCCESS);
    longer := Continue(lib, longer, 5, s1, DeliverOp(SUCCESS, LookUpAttempt), None);
    var o, c := ObservationNode(lib, b, SUCCESS.event, 0), ClaimNode(lib, b, Succeeded, 0);
    ObservationIsNotClaim(lib, b, SUCCESS.event, 0, b, 0);
    s := Receives(lib, s1, SUCCESS, b, o, c);
    longer := Continue(lib, longer, 5, s, DeliverOp(SUCCESS, AuditReceipt(b)), None);
    SameReceipt(lib, a, b);
  }

  lemma SameReceipt(lib: Library, a: Attempt, b: Attempt)
    requires b == a.(state := b.state, deployment := b.deployment)
    ensures WebhookReceipt(lib, SUCCESS, b, []) == WebhookReceipt(lib, SUCCESS, a, [])
  {
  }

  // The abandonment reads, then the reconciliation runs.
  lemma BothResolve(lib: Library, start: seq<Step>, a: Attempt) returns (steps: seq<Step>)
    requires |Reach(lib, start).ops| == 3 && InQuarantine(Reach(lib, start).s, a)
    ensures Reconciled(Reach(lib, steps), a)
  {
    hide Leads, Reach, Admitted;
    var s := Reach(lib, start).s;
    Admissions();
    steps := Resolves(lib, start, ABANDONMENT, a, 0);
    steps := Resolves(lib, steps, RECONCILIATION, a, 9);
    var t := Reconciles(lib, s, RECONCILIATION, Mandate(3, Quarantined), a, 9);
    steps := Continue(lib, steps, 4, t, ResolveOp(RECONCILIATION, AuditAccepted(a, 4)), Some(9));
  }

  // A resolution of "m" gets as far as its swap; a reconciliation finds deployment d.
  lemma Resolves(lib: Library, start: seq<Step>, job: ResolveJob, a: Attempt, d: int) returns (steps: seq<Step>)
    requires InQuarantine(Reach(lib, start).s, a)
    requires Admitted(job) && job.mandate == "m" && (job.reason.None? || d == 0)
    ensures Reach(lib, steps) == World(Reach(lib, start).s,
                                       Reach(lib, start).ops
                                       + [ResolveOp(job, SwapResolved(Mandate(3, Quarantined), a, d))])
  {
    hide Leads, Reach, Admitted;
    var s := Reach(lib, start).s;
    var answer := if job.reason.None? then Some(d) else None;
    steps := Begin(lib, start, ResolveOp(job, ReadMandate));
    FindsQuarantined(lib, s, job, a.id, answer);
    steps := Continue(lib, steps, |Reach(lib, start).ops|, s,
                      ResolveOp(job, SwapResolved(Mandate(3, Quarantined), a, d)), answer);
  }
}
