/** Building concrete runs: operations that start in a given world and go on alone for a while. */
module Scenarios {
  import opened Text
  import opened Records
  import opened Stores
  import opened DispatchProgram
  import opened ResolveProgram
  import opened DeliverProgram
  import opened DecideProgram
  import opened Machine
  import opened Runs

  lemma Begin(lib: Library, steps: seq<Step>, op: Op) returns (longer: seq<Step>)
    requires AtStart(op)
    ensures steps <= longer && Reach(lib, longer) == World(Reach(lib, steps).s, Reach(lib, steps).ops + [op])
  {
    hide Exec;
    longer := steps + [Start(op)];
    ReachSnoc(lib, steps, Start(op));
  }

  lemma Continue(lib: Library, steps: seq<Step>, i: nat, t: Stores, next: Op, answer: Option<int>)
    returns (longer: seq<Step>)
    requires i < |Reach(lib, steps).ops|
    requires Leads(lib, Reach(lib, steps).s, Reach(lib, steps).ops[i], t, next, answer)
    ensures steps <= longer && Reach(lib, longer) == World(t, Reach(lib, steps).ops[i := next])
  {
    hide Leads, Apply, Exec;
    var cs := LeadsIsRun(lib, steps, i, t, next, answer);
    longer := steps + Moves(i, cs);
  }

  lemma AlsoIssue(lib: Library, steps: seq<Step>, m: string) returns (longer: seq<Step>)
    requires m != "" && m !in Reach(lib, steps).s.mandates
    ensures steps <= longer
    ensures var w := Reach(lib, steps);
      Reach(lib, longer) == w.(s := w.s.(mandates := w.s.mandates[m := Mandate(1, Issued)]))
  {
    hide Exec;
    longer := steps + [Issue(m)];
    ReachSnoc(lib, steps, Issue(m));
  }

  lemma NothingYet(lib: Library)
    ensures Reach(lib, []) == NEWBORN
  {
  }

  // ----- Requests

  const PROPOSAL := ProposeJob("r", "requester", None, 0)
  const APPROVAL := DecideJob(Approve, "r", "approver", None, 1, 0)

  const PENDING := Request("requester", None, Pending, 0, 1)
  const APPROVED := Request("requester", None, Approved, 0, 2)

  /** The stores with one mandate and one request. */
  function Desktop(request: Request): Stores {
    EMPTY.(mandates := map["m" := Mandate(1, Issued)], requests := map["r" := request])
  }

  lemma Proposes(lib: Library, s: Stores, job: ProposeJob) returns (t: Stores)
    requires job.request != "" && job.request !in s.requests
    ensures Leads(lib, s, ProposeOp(job, InsertRequest), t, ProposeOp(job, AuditProposal), None)
    ensures t == s.(requests := s.requests[job.request := Request(job.requestedBy, job.intent, Pending, job.now, 1)])
  {
    hide Leads;
    var op := ProposeOp(job, InsertRequest);
    Standing(lib, s, op, None);
    Onward(lib, s, op, s, op, ANY, None);
    t := Perform(s, ProposeAwaits(job, InsertRequest), ANY).0;
  }

  /** The common beginning of these runs: mandate "m" is issued and request "r" proposed. */
  lemma ProposedRun(lib: Library) returns (steps: seq<Step>)
    ensures Reach(lib, steps) == World(Desktop(PENDING), [ProposeOp(PROPOSAL, AuditProposal)])
  {
    hide Leads, Reach;
    NothingYet(lib);
    steps := AlsoIssue(lib, [], "m");
    var s := Reach(lib, steps).s;
    steps := Begin(lib, steps, ProposeOp(PROPOSAL, InsertRequest));
    var t := Proposes(lib, s, PROPOSAL);
    steps := Continue(lib, steps, 0, t, ProposeOp(PROPOSAL, AuditProposal), None);
  }

  /** And approved. */
  lemma ApprovedRun(lib: Library) returns (steps: seq<Step>)
    ensures Reach(lib, steps)
      == World(Desktop(APPROVED), [ProposeOp(PROPOSAL, AuditProposal), DecideOp(APPROVAL, InsertDecision)])
  {
    hide Leads, Reach;
    steps := ProposedRun(lib);
    var s := Desktop(PENDING);
    steps := Begin(lib, steps, DecideOp(APPROVAL, ReadRequest));
    Reads(lib, s, APPROVAL);
    steps := Continue(lib, steps, 1, s, DecideOp(APPROVAL, SwapStatus(1)), None);
    var t := Decides(lib, s, APPROVAL, 1);
    assert t == Desktop(APPROVED);
    steps := Continue(lib, steps, 1, t, DecideOp(APPROVAL, InsertDecision), None);
  }

  // The read that every decision starts with.
  lemma Reads(lib: Library, s: Stores, job: DecideJob)
    requires job.request in s.requests && s.requests[job.request].status == DecideProgram.Before(job.verb)
    ensures Leads(lib, s, DecideOp(job, ReadRequest), s, DecideOp(job, SwapStatus(s.requests[job.request].version)),
                  None)
  {
    hide Leads;
    Standing(lib, s, DecideOp(job, ReadRequest), None);
    Onward(lib, s, DecideOp(job, ReadRequest), s, DecideOp(job, ReadRequest), ANY, None);
  }

  // The swap that decides, whatever the status now is.
  lemma Decides(lib: Library, s: Stores, job: DecideJob, seen: int) returns (t: Stores)
    requires job.verb != Revoke && job.request in s.requests && s.requests[job.request].version == job.expected
    ensures Leads(lib, s, DecideOp(job, SwapStatus(seen)), t, DecideOp(job, InsertDecision), None)
    ensures t == s.(requests := s.requests[job.request :=
                      s.requests[job.request].(status := After(job.verb), version := job.expected + 1)])
  {
    hide Leads;
    Standing(lib, s, DecideOp(job, SwapStatus(seen)), None);
    Onward(lib, s, DecideOp(job, SwapStatus(seen)), s, DecideOp(job, SwapStatus(seen)), ANY, None);
    t := Perform(s, DecideAwaits(job, SwapStatus(seen)), ANY).0;
  }

  // The decision record, filed or refused.
  lemma Files(lib: Library, s: Stores, job: DecideJob) returns (t: Stores)
    ensures var taken := DecisionId(job.request) in s.decisions;
      && Leads(lib, s, DecideOp(job, InsertDecision), t,
               DecideOp(job, if taken then Settled(DecisionExists) else AuditDecision), None)
      && t == s.(decisions := InsertOnce(s.decisions, DecisionId(job.request), NewDecision(job)).0)
  {
    hide Leads;
    Standing(lib, s, DecideOp(job, InsertDecision), None);
    Onward(lib, s, DecideOp(job, InsertDecision), s, DecideOp(job, InsertDecision), ANY, None);
    t := Perform(s, DecideAwaits(job, InsertDecision), ANY).0;
  }

  // ----- Dispatch

  function Job(mandate: string, expected: int): DispatchJob {
    DispatchJob("r", mandate, "i", "executor", "t", "k", expected, 0)
  }

  function AcceptedAttempt(job: DispatchJob, d: int): Attempt {
    NewAttempt(job).(state := Accepted, deployment := Some(d))
  }

  /** Checked, reserved, journaled: the three moves of a dispatch whose expected version is stored. */
  lemma Reserves(lib: Library, s: Stores, job: DispatchJob, answer: Option<int>) returns (t: Stores)
    requires job.request in s.requests && s.requests[job.request].status == Approved
    requires job.mandate in s.mandates && s.mandates[job.mandate].version == job.expected
    ensures Leads(lib, s, DispatchOp(job, CheckRequest), t,
                  DispatchOp(job, if AttemptId(job.mandate) in s.attempts then Finished(AttemptExists)
                             else MarkDispatching), answer)
    ensures t == s.(mandates := s.mandates[job.mandate := Mandate(job.expected + 1, Reserved)],
                    attempts := InsertOnce(s.attempts, AttemptId(job.mandate), NewAttempt(job)).0)
  {
    hide Leads;
    var op := DispatchOp(job, CheckRequest);
    Standing(lib, s, op, answer);
    Onward(lib, s, op, s, op, ANY, answer);
    Onward(lib, s, op, s, DispatchOp(job, Reserve), ANY, answer);
    var s1 := Perform(s, DispatchAwaits(lib, job, Reserve), ANY).0;
    Onward(lib, s, op, s1, DispatchOp(job, InsertAttempt), ANY, answer);
    t := Perform(s1, DispatchAwaits(lib, job, InsertAttempt), ANY).0;
  }

  lemma Journals(lib: Library, s: Stores, job: DispatchJob, answer: Option<int>) returns (t: Stores)
    requires AttemptId(job.mandate) in s.attempts
    ensures Leads(lib, s, DispatchOp(job, MarkDispatching), t, DispatchOp(job, CallProvider), answer)
    ensures t == s.(attempts := SetState(s.attempts, AttemptId(job.mandate), Dispatching).0, audit := t.audit)
  {
    hide Leads;
    var op := DispatchOp(job, MarkDispatching);
    Standing(lib, s, op, answer);
    Onward(lib, s, op, s, op, ANY, answer);
    var s1 := Perform(s, DispatchAwaits(lib, job, MarkDispatching), ANY).0;
    Onward(lib, s, op, s1, DispatchOp(job, AuditReserve), ANY, answer);
    t := Perform(s1, DispatchAwaits(lib, job, AuditReserve), ANY).0;
  }

  lemma Asks(lib: Library, s: Stores, op: Op, s1: Stores, job: DispatchJob, answer: Option<int>) returns (t: Stores)
    requires Leads(lib, s, op, s1, DispatchOp(job, CallProvider), answer)
    ensures Leads(lib, s, op, t,
                  DispatchOp(job, if answer.Some? then MarkAccepted(answer.value) else MarkAmbiguous), answer)
    ensures t == s1.(provider := s1.provider + [DispatchAwaits(lib, job, CallProvider).call])
  {
    hide Leads;
    Onward(lib, s, op, s1, DispatchOp(job, CallProvider), Choice("", answer), answer);
    t := Perform(s1, DispatchAwaits(lib, job, CallProvider), Choice("", answer)).0;
  }

  /** The provider is called. */
  lemma Calls(lib: Library, s: Stores, job: DispatchJob, answer: Option<int>) returns (t: Stores)
    requires AttemptId(job.mandate) in s.attempts
    ensures Leads(lib, s, DispatchOp(job, MarkDispatching), t,
                  DispatchOp(job, if answer.Some? then MarkAccepted(answer.value) else MarkAmbiguous), answer)
    ensures t == s.(attempts := SetState(s.attempts, AttemptId(job.mandate), Dispatching).0, audit := t.audit,
                    provider := s.provider + [DispatchAwaits(lib, job, CallProvider).call])
  {
    hide Leads, SetState, DispatchAwaits;
    var s1 := Journals(lib, s, job, answer);
    t := Asks(lib, s, DispatchOp(job, MarkDispatching), s1, job, answer);
  }

  /** Acceptance is written to the attempt. */
  lemma Accepts(lib: Library, s: Stores, job: DispatchJob, d: int) returns (t: Stores)
    requires AttemptId(job.mandate) in s.attempts
    ensures Leads(lib, s, DispatchOp(job, MarkAccepted(d)), t, DispatchOp(job, Consume(d)), Some(d))
    ensures t == s.(attempts := s.attempts[AttemptId(job.mandate) :=
                      s.attempts[AttemptId(job.mandate)].(state := Accepted, deployment := Some(d))])
  {
    hide Leads;
    var op := DispatchOp(job, MarkAccepted(d));
    Standing(lib, s, op, Some(d));
    Onward(lib, s, op, s, op, ANY, Some(d));
    var s1 := Perform(s, DispatchAwaits(lib, job, MarkAccepted(d)), ANY).0;
    Onward(lib, s, op, s1, DispatchOp(job, StoreDeployment(d)), ANY, Some(d));
    t := Perform(s1, DispatchAwaits(lib, job, StoreDeployment(d)), ANY).0;
  }

  /** The completing swap and its audit event. */
  lemma Consumes(lib: Library, s: Stores, job: DispatchJob, d: int) returns (t: Stores)
    requires job.mandate in s.mandates && s.mandates[job.mandate].version == job.expected + 1
    ensures Leads(lib, s, DispatchOp(job, Consume(d)), t, DispatchOp(job, Finished(DispatchAccepted(d))), Some(d))
    ensures t == s.(mandates := s.mandates[job.mandate := Mandate(job.expected + 2, Consumed)], audit := t.audit)
  {
    hide Leads;
    var op := DispatchOp(job, Consume(d));
    Standing(lib, s, op, Some(d));
    Onward(lib, s, op, s, op, ANY, Some(d));
    var s1 := Perform(s, DispatchAwaits(lib, job, Consume(d)), ANY).0;
    Onward(lib, s, op, s1, DispatchOp(job, AuditConsume(d)), ANY, Some(d));
    t := Perform(s1, DispatchAwaits(lib, job, AuditConsume(d)), ANY).0;
  }

  /** The completing swap meets another version. */
  lemma ConsumeConflicts(lib: Library, s: Stores, job: DispatchJob, d: int)
    requires job.mandate in s.mandates && s.mandates[job.mandate].version != job.expected + 1
    ensures Leads(lib, s, DispatchOp(job, Consume(d)), s, DispatchOp(job, Finished(AlreadyConsumed)), Some(d))
  {
    hide Leads;
    Standing(lib, s, DispatchOp(job, Consume(d)), Some(d));
    Onward(lib, s, DispatchOp(job, Consume(d)), s, DispatchOp(job, Consume(d)), ANY, Some(d));
  }

  /** One whole accepted dispatch of a mandate not dispatched before. */
  lemma Dispatches(lib: Library, steps: seq<Step>, job: DispatchJob, d: int) returns (longer: seq<Step>)
    requires var s := Reach(lib, steps).s;
      && job.request in s.requests && s.requests[job.request].status == Approved
      && job.mandate in s.mandates && s.mandates[job.mandate].version == job.expected
      && AttemptId(job.mandate) !in s.attempts
    ensures var s, t := Reach(lib, steps).s, Reach(lib, longer).s;
      && steps <= longer
      && Reach(lib, longer).ops == Reach(lib, steps).ops + [DispatchOp(job, Finished(DispatchAccepted(d)))]
      && t == s.(mandates := s.mandates[job.mandate := Mandate(job.expected + 2, Consumed)],
                 audit := t.audit, provider := t.provider,
                 attempts := s.attempts[AttemptId(job.mandate) := AcceptedAttempt(job, d)])
  {
    hide Leads, Reach;
    var s, i := Reach(lib, steps).s, |Reach(lib, steps).ops|;
    longer := Begin(lib, steps, DispatchOp(job, CheckRequest));
    var s1 := Reserves(lib, s, job, Some(d));
    longer := Continue(lib, longer, i, s1, DispatchOp(job, MarkDispatching), Some(d));
    var s2 := Calls(lib, s1, job, Some(d));
    longer := Continue(lib, longer, i, s2, DispatchOp(job, MarkAccepted(d)), Some(d));
    var s3 := Accepts(lib, s2, job, d);
    longer := Continue(lib, longer, i, s3, DispatchOp(job, Consume(d)), Some(d));
    var s4 := Consumes(lib, s3, job, d);
    longer := Continue(lib, longer, i, s4, DispatchOp(job, Finished(DispatchAccepted(d))), Some(d));
  }

  lemma Distrusts(lib: Library, s: Stores, job: DispatchJob) returns (t: Stores)
    requires AttemptId(job.mandate) in s.attempts
    ensures Leads(lib, s, DispatchOp(job, MarkAmbiguous), t, DispatchOp(job, Quarantine), None)
    ensures t == s.(attempts := SetState(s.attempts, AttemptId(job.mandate), OutcomeAmbiguous).0)
  {
    hide Leads;
    Standing(lib, s, DispatchOp(job, MarkAmbiguous), None);
    Onward(lib, s, DispatchOp(job, MarkAmbiguous), s, DispatchOp(job, MarkAmbiguous), ANY, None);
    t := Perform(s, DispatchAwaits(lib, job, MarkAmbiguous), ANY).0;
  }

  lemma Suspends(lib: Library, s: Stores, op: Op, s1: Stores, job: DispatchJob) returns (t: Stores)
    requires Leads(lib, s, op, s1, DispatchOp(job, Quarantine), None)
    requires job.mandate in s1.mandates && s1.mandates[job.mandate].version == job.expected + 1
    ensures Leads(lib, s, op, t, DispatchOp(job, AuditQuarantine), None)
    ensures t == s1.(mandates := s1.mandates[job.mandate := Mandate(job.expected + 2, Quarantined)])
  {
    hide Leads;
    Onward(lib, s, op, s1, DispatchOp(job, Quarantine), ANY, None);
    t := Perform(s1, DispatchAwaits(lib, job, Quarantine), ANY).0;
  }

  /** A failed call: attempt ambiguous, mandate quarantined. */
  lemma Quarantines(lib: Library, s: Stores, job: DispatchJob) returns (t: Stores)
    requires AttemptId(job.mandate) in s.attempts
    requires job.mandate in s.mandates && s.mandates[job.mandate].version == job.expected + 1
    ensures Leads(lib, s, DispatchOp(job, MarkAmbiguous), t, DispatchOp(job, AuditQuarantine), None)
    ensures t == s.(mandates := s.mandates[job.mandate := Mandate(job.expected + 2, Quarantined)],
                    attempts := SetState(s.attempts, AttemptId(job.mandate), OutcomeAmbiguous).0)
  {
    hide Leads, SetState;
    var s1 := Distrusts(lib, s, job);
    t := Suspends(lib, s, DispatchOp(job, MarkAmbiguous), s1, job);
  }

  // ----- Resolution

  /** The reads before the swap: the record quarantined, and its ambiguous attempt. */
  lemma FindsQuarantined(lib: Library, s: Stores, job: ResolveJob, id: string, answer: Option<int>)
    requires job.mandate in s.mandates && s.mandates[job.mandate].state == Quarantined
    requires IsAmbiguousOf(s.attempts, job.mandate, id) && (job.reason.None? ==> answer.Some?)
    ensures Leads(lib, s, ResolveOp(job, ReadMandate), s,
                  ResolveOp(job, SwapResolved(s.mandates[job.mandate], s.attempts[id],
                                              if job.reason.None? then answer.value else 0)), answer)
  {
    hide Leads, IsAmbiguousOf;
    var op, seen := ResolveOp(job, ReadMandate), s.mandates[job.mandate];
    Standing(lib, s, op, answer);
    Onward(lib, s, op, s, op, ANY, answer);
    AmbiguousThere(s.attempts, job.mandate, id);
    Onward(lib, s, op, s, ResolveOp(job, FindAttempt(seen)), Choice(id, None), answer);
    if job.reason.None? {
      Onward(lib, s, op, s, ResolveOp(job, AskProvider(seen, s.attempts[id])), Choice("", answer), answer);
    }
  }

  lemma AmbiguousThere(m: map<string, Attempt>, mandate: string, id: string)
    requires IsAmbiguousOf(m, mandate, id)
    ensures id in m && HasAmbiguous(m, mandate)
  {
  }

  /** Reconciled as accepted: swap, deployment id, state. */
  lemma Reconciles(lib: Library, s: Stores, job: ResolveJob, seen: Mandate, a: Attempt, d: int) returns (t: Stores)
    requires job.reason.None? && a.deployment.None? && a.id in s.attempts
    requires job.mandate in s.mandates && s.mandates[job.mandate].version == job.expected
    ensures Leads(lib, s, ResolveOp(job, SwapResolved(seen, a, d)), t,
                  ResolveOp(job, AuditAccepted(a, job.expected + 1)), Some(d))
    ensures t == s.(mandates := s.mandates[job.mandate := Mandate(job.expected + 1, Consumed)],
                    attempts := s.attempts[a.id :=
                      s.attempts[a.id].(state := ReconciledAccepted, deployment := Some(d))])
  {
    hide Leads;
    var op := ResolveOp(job, SwapResolved(seen, a, d));
    Standing(lib, s, op, Some(d));
    Onward(lib, s, op, s, op, ANY, Some(d));
    var s1 := Perform(s, ResolveAwaits(job, SwapResolved(seen, a, d)), ANY).0;
    Onward(lib, s, op, s1, ResolveOp(job, RecordDeployment(a, d, job.expected + 1)), ANY, Some(d));
    var s2 := Perform(s1, ResolveAwaits(job, RecordDeployment(a, d, job.expected + 1)), ANY).0;
    Onward(lib, s, op, s2, ResolveOp(job, MarkReconciled(a, job.expected + 1)), ANY, Some(d));
    t := Perform(s2, ResolveAwaits(job, MarkReconciled(a, job.expected + 1)), ANY).0;
  }

  /** Abandoned: swap, state, receipt. */
  lemma Abandons(lib: Library, s: Stores, job: ResolveJob, seen: Mandate, a: Attempt) returns (t: Stores)
    requires job.reason.Some? && a.id in s.attempts && AbandonedReceiptId(a.id) !in s.receipts
    requires job.mandate in s.mandates && s.mandates[job.mandate].version == job.expected
    ensures Leads(lib, s, ResolveOp(job, SwapResolved(seen, a, 0)), t,
                  ResolveOp(job, AuditAbandoned(a, job.expected + 1)), None)
    ensures t == s.(mandates := s.mandates[job.mandate := Mandate(job.expected + 1, Abandoned)], attempts := t.attempts,
                    receipts := s.receipts[AbandonedReceiptId(a.id) := UnknownReceipt(job, a)])
  {
    hide Leads;
    var op := ResolveOp(job, SwapResolved(seen, a, 0));
    Standing(lib, s, op, None);
    Onward(lib, s, op, s, op, ANY, None);
    var s1 := Perform(s, ResolveAwaits(job, SwapResolved(seen, a, 0)), ANY).0;
    Onward(lib, s, op, s1, ResolveOp(job, MarkAbandoned(a, job.expected + 1)), ANY, None);
    var s2 := Perform(s1, ResolveAwaits(job, MarkAbandoned(a, job.expected + 1)), ANY).0;
    Onward(lib, s, op, s2, ResolveOp(job, InsertUnknown(a, job.expected + 1)), ANY, None);
    t := Perform(s2, ResolveAwaits(job, InsertUnknown(a, job.expected + 1)), ANY).0;
  }

  // ----- Webhooks

  lemma RecordsDelivery(lib: Library, s: Stores, job: DeliverJob) returns (t: Stores)
    requires job.delivery != "" && job.delivery !in s.deliveries
    ensures Leads(lib, s, DeliverOp(job, LookUpDelivery), t, DeliverOp(job, TrackOrder), None)
    ensures t == s.(deliveries := s.deliveries[job.delivery := Delivery("github", lib.sha(job.event.raw), job.now)])
  {
    hide Leads;
    var op := DeliverOp(job, LookUpDelivery);
    Standing(lib, s, op, None);
    Onward(lib, s, op, s, op, ANY, None);
    Onward(lib, s, op, s, DeliverOp(job, RecordDelivery), ANY, None);
    t := Perform(s, DeliverAwaits(lib, job, RecordDelivery), ANY).0;
  }

  /** A new delivery with a final status passes the gate. */
  lemma Ingests(lib: Library, s: Stores, job: DeliverJob) returns (t: Stores)
    requires job.delivery != "" && job.delivery !in s.deliveries && IsFinalStatus(job.event.state)
    ensures Leads(lib, s, DeliverOp(job, LookUpDelivery), t, DeliverOp(job, LookUpAttempt), None)
    ensures t == s.(deliveries := s.deliveries[job.delivery := Delivery("github", lib.sha(job.event.raw), job.now)],
                    latest := t.latest, audit := t.audit)
  {
    hide Leads, Track;
    var op := DeliverOp(job, LookUpDelivery);
    var s1 := RecordsDelivery(lib, s, job);
    Onward(lib, s, op, s1, DeliverOp(job, TrackOrder), ANY, None);
    var (s2, late) := Perform(s1, DeliverAwaits(lib, job, TrackOrder), ANY);
    Onward(lib, s, op, s2, DeliverOp(job, AuditIngest(late.late)), ANY, None);
    t := Perform(s2, DeliverAwaits(lib, job, AuditIngest(late.late)), ANY).0;
  }

  lemma Finds(lib: Library, s: Stores, job: DeliverJob, a: Attempt)
    requires HoldsDeployment(s.attempts, job.event.deployment, a.id) && s.attempts[a.id] == a
    requires MapOutcome(job.event.state) != Unknown
    ensures Leads(lib, s, DeliverOp(job, LookUpAttempt), s, DeliverOp(job, InsertObservation(a, [])), None)
  {
    hide Leads, MapOutcome;
    DeploymentThere(s.attempts, job.event.deployment, a.id);
    Standing(lib, s, DeliverOp(job, LookUpAttempt), None);
    Onward(lib, s, DeliverOp(job, LookUpAttempt), s, DeliverOp(job, LookUpAttempt), Choice(a.id, None), None);
  }

  lemma StoresEvidence(lib: Library, s: Stores, op: Op, s1: Stores, job: DeliverJob, a: Attempt, o: Node, c: Node)
    returns (t: Stores)
    requires Leads(lib, s, op, s1, DeliverOp(job, InsertObservation(a, [])), None)
    requires o == ObservationNode(lib, a, job.event, job.now)
    requires c == ClaimNode(lib, a, MapOutcome(job.event.state), job.now)
    requires o.id !in s1.nodes && c.id !in s1.nodes && o.id != c.id
    ensures Leads(lib, s, op, t, DeliverOp(job, InsertReceipt(a, [])), None)
    ensures t == s1.(nodes := s1.nodes[o.id := o][c.id := c])
  {
    hide Leads, Perform, MapOutcome, ObservationNode, ClaimNode;
    EvidenceIsNamed(lib, job, a);
    PutsNew(s1, o);
    Onward(lib, s, op, s1, DeliverOp(job, InsertObservation(a, [])), ANY, None);
    var s2 := s1.(nodes := s1.nodes[o.id := o]);
    PutsNew(s2, c);
    Onward(lib, s, op, s2, DeliverOp(job, InsertClaim(a, [])), ANY, None);
    t := s2.(nodes := s2.nodes[c.id := c]);
  }

  lemma EvidenceIsNamed(lib: Library, job: DeliverJob, a: Attempt)
    ensures ObservationNode(lib, a, job.event, job.now).id != ""
    ensures ClaimNode(lib, a, MapOutcome(job.event.state), job.now).id != ""
  {
  }

  lemma PutsNew(s: Stores, node: Node)
    requires node.id != "" && node.id !in s.nodes
    ensures Perform(s, PutNode(node), ANY) == (s.(nodes := s.nodes[node.id := node]), Stored(true))
  {
  }

  lemma StoresReceipt(lib: Library, s: Stores, op: Op, s1: Stores, job: DeliverJob, a: Attempt) returns (t: Stores)
    requires Leads(lib, s, op, s1, DeliverOp(job, InsertReceipt(a, [])), None) && ReceiptId(a.id) !in s1.receipts
    ensures Leads(lib, s, op, t, DeliverOp(job, AuditReceipt(a)), None)
    ensures t == s1.(receipts := s1.receipts[ReceiptId(a.id) := WebhookReceipt(lib, job, a, [])])
  {
    hide Leads, MapOutcome, ClaimNode, ObservationNode;
    Onward(lib, s, op, s1, DeliverOp(job, InsertReceipt(a, [])), ANY, None);
    t := Perform(s1, DeliverAwaits(lib, job, InsertReceipt(a, [])), ANY).0;
  }

  /** Its attempt is found, and evidence and receipt are new: all three are stored. */
  lemma Receives(lib: Library, s: Stores, job: DeliverJob, a: Attempt, o: Node, c: Node) returns (t: Stores)
    requires HoldsDeployment(s.attempts, job.event.deployment, a.id) && s.attempts[a.id] == a
    requires MapOutcome(job.event.state) != Unknown && ReceiptId(a.id) !in s.receipts
    requires o == ObservationNode(lib, a, job.event, job.now)
    requires c == ClaimNode(lib, a, MapOutcome(job.event.state), job.now)
    requires o.id !in s.nodes && c.id !in s.nodes && o.id != c.id
    ensures Leads(lib, s, DeliverOp(job, LookUpAttempt), t, DeliverOp(job, AuditReceipt(a)), None)
    ensures t == s.(nodes := s.nodes[o.id := o][c.id := c],
                    receipts := s.receipts[ReceiptId(a.id) := WebhookReceipt(lib, job, a, [])])
  {
    hide Leads, HoldsDeployment, MapOutcome, WebhookReceipt, ObservationNode, ClaimNode;
    var op := DeliverOp(job, LookUpAttempt);
    Finds(lib, s, job, a);
    var s1 := StoresEvidence(lib, s, op, s, job, a, o, c);
    t := StoresReceipt(lib, s, op, s1, job, a);
  }

  lemma DeploymentThere(m: map<string, Attempt>, deployment: int, id: string)
    requires HoldsDeployment(m, deployment, id)
    ensures id in m && DeploymentKnown(m, deployment)
  {
  }

  // ----- Evidence ids

  function ObservationText(mandate: string, attempt: string, state: string): string {
    "github" + mandate + "|" + attempt + "|deployment_status|" + state
  }

  function ClaimText(mandate: string, attempt: string, outcome: string): string {
    "piteka" + mandate + "|" + attempt + "|outcome_claim|" + outcome
  }

  lemma TextsApart(m: string, a: string, s: string, n: string, b: string, o: string)
    ensures ObservationText(m, a, s) != ClaimText(n, b, o)
  {
    assert ObservationText(m, a, s)[0] == 'g' && ClaimText(n, b, o)[0] == 'p';
  }

  lemma MandatesApart(m: string, a: string, s: string, n: string, b: string, t: string)
    requires m != "" && n != "" && m[0] != n[0]
    ensures ObservationText(m, a, s) != ObservationText(n, b, t)
    ensures ClaimText(m, a, s) != ClaimText(n, b, t)
  {
    assert ObservationText(m, a, s)[6] == m[0] && ObservationText(n, b, t)[6] == n[0];
    assert ClaimText(m, a, s)[6] == m[0] && ClaimText(n, b, t)[6] == n[0];
  }

  /** The four evidence texts of the runs built here: both nodes of a success, for mandates "m" and "n". */
  function EvidenceTexts(): set<string> {
    {ObservationText("m", AttemptId("m"), "success"), ClaimText("m", AttemptId("m"), "succeeded"),
     ObservationText("n", AttemptId("n"), "success"), ClaimText("n", AttemptId("n"), "succeeded")}
  }

  /** The hash gives these four texts different digests. */
  predicate KeepsApart(lib: Library) {
    forall x, y :: x in EvidenceTexts() && y in EvidenceTexts() && lib.sha(x) == lib.sha(y) ==> x == y
  }

  predicate OfThese(a: Attempt) {
    a.mandate in {"m", "n"} && a.id == AttemptId(a.mandate)
  }

  lemma TextsKeptApart(lib: Library, x: string, y: string)
    requires KeepsApart(lib) && x in EvidenceTexts() && y in EvidenceTexts() && x != y
    ensures NodeId(lib.sha(x)) != NodeId(lib.sha(y))
  {
    NodeIdsApart(lib.sha(x), lib.sha(y));
  }

  lemma ObservationIsNotClaim(lib: Library, a: Attempt, e: Event, now: int, b: Attempt, then': int)
    requires KeepsApart(lib) && OfThese(a) && OfThese(b) && e.state == "success"
    ensures ObservationNode(lib, a, e, now).id != ClaimNode(lib, b, Succeeded, then').id
  {
    hide KeepsApart;
    var x, y := ObservationText(a.mandate, a.id, e.state), ClaimText(b.mandate, b.id, "succeeded");
    TextsApart(a.mandate, a.id, e.state, b.mandate, b.id, "succeeded");
    NamesOfNodes(lib, a, e, now, Succeeded);
    NamesOfNodes(lib, b, e, then', Succeeded);
    TextsKeptApart(lib, x, y);
  }

  lemma NodesOfOthers(lib: Library, a: Attempt, e: Event, now: int, b: Attempt, f: Event, then': int)
    requires KeepsApart(lib) && OfThese(a) && OfThese(b) && a.mandate != b.mandate
    requires e.state == f.state == "success"
    ensures ObservationNode(lib, a, e, now).id != ObservationNode(lib, b, f, then').id
    ensures ClaimNode(lib, a, Succeeded, now).id != ClaimNode(lib, b, Succeeded, then').id
  {
    hide KeepsApart;
    MandatesApart(a.mandate, a.id, e.state, b.mandate, b.id, f.state);
    MandatesApart(a.mandate, a.id, "succeeded", b.mandate, b.id, "succeeded");
    NamesOfNodes(lib, a, e, now, Succeeded);
    NamesOfNodes(lib, b, f, then', Succeeded);
    TextsKeptApart(lib, ObservationText(a.mandate, a.id, e.state), ObservationText(b.mandate, b.id, f.state));
    TextsKeptApart(lib, ClaimText(a.mandate, a.id, "succeeded"), ClaimText(b.mandate, b.id, "succeeded"));
  }

  lemma NamesOfNodes(lib: Library, a: Attempt, e: Event, now: int, o: Outcome)
    ensures ObservationNode(lib, a, e, now).id == NodeId(lib.sha(ObservationText(a.mandate, a.id, e.state)))
    ensures ClaimNode(lib, a, o, now).id == NodeId(lib.sha(ClaimText(a.mandate, a.id, OutcomeText(o))))
  {
  }

  lemma NodeIdsApart(x: string, y: string)
    ensures NodeId(x) == NodeId(y) <==> x == y
  {
    PrefixInjective("ev-", x, y);
  }
}
