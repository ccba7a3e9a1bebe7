/**
 `reserve`, `complete_dispatch` and `reserve_and_dispatch` (crates/piteka-application/src/dispatch.rs)
 over the in-memory stores. With nobody else in between, each of them is a run of the dispatch program.
 */
module DispatchUseCase {
  import opened Records
  import opened Stores
  import opened DispatchProgram
  import opened Machine
  import opened Runs
  import opened Ports
  import opened Correlation
  import Scenarios

  datatype Reservation = Dispatched | Refused(result: DispatchResult)

  datatype Completion = Done | InvalidProviderResponse | Lost(result: DispatchResult)

  /** How the program ends for a completion; a response without the required id counts as a failure. */
  function Ending(done: Completion, deployment: Option<int>): DispatchResult {
    if done.Lost? then done.result
    else if deployment.Some? then DispatchAccepted(deployment.value)
    else DispatchFailed
  }

  /** A reservation that is granted leaves the call's own attempt in the journal. */
  method Reserve(b: Backend, lib: Library, job: DispatchJob, ghost answer: Option<int>) returns (r: Reservation)
    requires b.Valid()
    modifies b.Repr()
    ensures b.Valid()
    ensures Leads(lib, old(b.View()), DispatchOp(job, CheckRequest), b.View(),
                  DispatchOp(job, if r.Dispatched? then CallProvider else Finished(r.result)), answer)
    ensures r.Dispatched? ==>
      AttemptId(job.mandate) in b.View().attempts && IsAttemptOf(b.View().attempts[AttemptId(job.mandate)], job)
  {
    hide Leads, Perform, Backend.Valid, Backend.View;
    r := CheckAndReserve(b, lib, job, answer);
    if r.Dispatched? {
      LeadsOwns(lib, old(b.View()), DispatchOp(job, CheckRequest), b.View(), DispatchOp(job, CallProvider), answer);
    }
  }

  method CheckAndReserve(b: Backend, lib: Library, job: DispatchJob, ghost answer: Option<int>)
    returns (r: Reservation)
    requires b.Valid()
    modifies b.Repr()
    ensures b.Valid()
    ensures Leads(lib, old(b.View()), DispatchOp(job, CheckRequest), b.View(),
                  DispatchOp(job, if r.Dispatched? then CallProvider else Finished(r.result)), answer)
  {
    hide Leads, Perform, Backend.Valid, Backend.View;
    ghost var s, op := b.View(), DispatchOp(job, CheckRequest);
    Standing(lib, s, op, answer);
    var request := b.GetRequest(job.request);
    Onward(lib, s, op, b.View(), op, ANY, answer);
    if request.None? {
      return Refused(RequestNotFound);
    }
    if request.value.status != Approved {
      return Refused(NotApproved(request.value.status));
    }
    ghost var at := b.View();
    var swap := b.SwapMandate(job.mandate, job.expected, Reserved);
    Onward(lib, s, op, at, DispatchOp(job, DispatchPc.Reserve), ANY, answer);
    match swap
    case Missing => return Refused(NoMandate);
    case Conflict(current) =>
      r := Inspect(b, lib, job, current, s, answer);
    case Applied(_) =>
      r := Journal(b, lib, job, s, answer);
  }

  // A conflict against a used mandate is an attempt at replay, and is put on record.
  method Inspect(b: Backend, lib: Library, job: DispatchJob, current: int, ghost s: Stores, ghost answer: Option<int>)
    returns (r: Reservation)
    requires b.Valid() && Leads(lib, s, DispatchOp(job, CheckRequest), b.View(),
                                DispatchOp(job, InspectConflict(current)), answer)
    modifies b.Repr()
    ensures b.Valid() && r.Refused?
    ensures Leads(lib, s, DispatchOp(job, CheckRequest), b.View(), DispatchOp(job, Finished(r.result)), answer)
  {
    hide Leads, Perform, Backend.Valid, Backend.View;
    ghost var op := DispatchOp(job, CheckRequest);
    var now := b.GetMandate(job.mandate);
    Onward(lib, s, op, b.View(), DispatchOp(job, InspectConflict(current)), ANY, answer);
    if now.Some? && now.value.state in {Consumed, Quarantined, Abandoned} {
      ghost var at := b.View();
      b.Log(Audit(Some(job.executor), "execute_approved_deployment", "denied", job.mandate));
      Onward(lib, s, op, at, DispatchOp(job, RecordReplay(now.value.state)), ANY, answer);
      return Refused(ReplayRejected(now.value.state));
    }
    return Refused(ReservationFailed(current));
  }

  // The winner's own writes: attempt, state, audit event.
  method Journal(b: Backend, lib: Library, job: DispatchJob, ghost s: Stores, ghost answer: Option<int>)
    returns (r: Reservation)
    requires b.Valid() && Leads(lib, s, DispatchOp(job, CheckRequest), b.View(), DispatchOp(job, InsertAttempt), answer)
    modifies b.Repr()
    ensures b.Valid()
    ensures Leads(lib, s, DispatchOp(job, CheckRequest), b.View(),
                  DispatchOp(job, if r.Dispatched? then CallProvider else Finished(r.result)), answer)
  {
    hide Leads, Perform, Backend.Valid, Backend.View;
    ghost var op := DispatchOp(job, CheckRequest);
    var id := AttemptId(job.mandate);
    ghost var at := b.View();
    var ok := b.PutAttempt(NewAttempt(job));
    Onward(lib, s, op, at, DispatchOp(job, InsertAttempt), ANY, answer);
    if !ok {
      return Refused(AttemptExists);
    }
    at := b.View();
    ok := b.SetAttemptState(id, Dispatching);
    Onward(lib, s, op, at, DispatchOp(job, MarkDispatching), ANY, answer);
    if !ok {
      return Refused(AttemptMissing);
    }
    at := b.View();
    b.Log(Audit(Some(job.executor), "reserve_mandate", "granted", job.mandate));
    Onward(lib, s, op, at, DispatchOp(job, AuditReserve), ANY, answer);
    return Dispatched;
  }

  // ----- Completion, for any attempt, mandate and version a caller names

  /** An acceptance counts only with a deployment id. */
  function Taken(accepted: bool, deployment: Option<int>): Option<int> {
    if accepted then deployment else None
  }

  function CompletingSwap(s: Stores, mandate: string, expected: int, taken: Option<int>)
    : (map<string, Mandate>, CasOutcome)
  {
    Cas(s.mandates, mandate, expected, if taken.Some? then Consumed else Quarantined)
  }

  /** The completing swap, journaled if it applied. */
  function SwappedStores(s: Stores, mandate: string, executor: string, expected: int, taken: Option<int>): Stores {
    var (table, out) := CompletingSwap(s, mandate, expected, taken);
    var event := if taken.Some? then Audit(Some(executor), "consume_mandate", "granted", mandate)
                 else Audit(Some(executor), "quarantine_mandate", "denied", mandate);
    s.(mandates := table, audit := s.audit + if out.Applied? then [event] else [])
  }

  /**
   The stores after a completion: nothing without the named attempt; otherwise that attempt alone says what was
   answered, the mandate is swapped if it has the expected version, and only a swap that applied is journaled.
   */
  function CompletedStores(s: Stores, attempt: string, mandate: string, executor: string, expected: int,
                           taken: Option<int>): Stores {
    if attempt !in s.attempts then s
    else
      var a := s.attempts[attempt];
      var written := if taken.Some? then a.(state := Accepted, deployment := taken) else a.(state := OutcomeAmbiguous);
      SwappedStores(s.(attempts := s.attempts[attempt := written]), mandate, executor, expected, taken)
  }

  /** A conflict is an error after an acceptance, and none after a failure. */
  function SwapResult(out: CasOutcome, accepted: bool, taken: Option<int>): Completion {
    match out
    case Missing => Lost(MandateVanished)
    case Conflict(_) =>
      if taken.Some? then Lost(AlreadyConsumed) else if accepted then InvalidProviderResponse else Done
    case Applied(_) => if accepted && taken.None? then InvalidProviderResponse else Done
  }

  function CompletedResult(s: Stores, attempt: string, mandate: string, expected: int, accepted: bool,
                           taken: Option<int>): Completion {
    if attempt !in s.attempts then Lost(AttemptMissing)
    else SwapResult(CompletingSwap(s, mandate, expected, taken).1, accepted, taken)
  }

  /**
   What a completion leaves and answers, case by case. Only an acceptance with a deployment id is taken as one; an
   acceptance without is written as a failure and reported as malformed, unless attempt or mandate is not there.
   */
  lemma CompletionTells(s: Stores, attempt: string, mandate: string, executor: string, expected: int, accepted: bool,
                        deployment: Option<int>)
    ensures var yes := accepted && deployment.Some?;
      var t := CompletedStores(s, attempt, mandate, executor, expected, Taken(accepted, deployment));
      var done := CompletedResult(s, attempt, mandate, expected, accepted, Taken(accepted, deployment));
      && t == s.(attempts := t.attempts, mandates := t.mandates, audit := t.audit)
      && (attempt !in s.attempts ==> t == s && done == Lost(AttemptMissing))
      && (attempt in s.attempts ==>
            && t.attempts == s.attempts[attempt := s.attempts[attempt].(
                               state := if yes then Accepted else OutcomeAmbiguous,
                               deployment := if yes then deployment else s.attempts[attempt].deployment)]
            && if mandate in s.mandates && s.mandates[mandate].version == expected then
                 && t.mandates == s.mandates[mandate := Mandate(expected + 1, if yes then Consumed else Quarantined)]
                 && t.audit == s.audit + [Audit(Some(executor), if yes then "consume_mandate" else "quarantine_mandate",
                                                if yes then "granted" else "denied", mandate)]
                 && done == if accepted && deployment.None? then InvalidProviderResponse else Done
               else
                 && t.mandates == s.mandates && t.audit == s.audit
                 && done == if mandate !in s.mandates then Lost(MandateVanished)
                            else if yes then Lost(AlreadyConsumed)
                            else if accepted then InvalidProviderResponse else Done)
  {
  }

  /**
   Records the provider's answer. An acceptance without a deployment id takes the failure path and is
   then reported as malformed.
   */
  method CompleteDispatch(b: Backend, attempt: string, mandate: string, accepted: bool, deployment: Option<int>,
                          executor: string, expected: int) returns (done: Completion)
    requires b.Valid()
    modifies b.Repr()
    ensures b.Valid()
    ensures var taken := Taken(accepted, deployment);
      && b.View() == CompletedStores(old(b.View()), attempt, mandate, executor, expected, taken)
      && done == CompletedResult(old(b.View()), attempt, mandate, expected, accepted, taken)
  {
    hide Backend.Valid, Backend.View, CompletedStores;
    if accepted && deployment.Some? {
      done := Accept(b, attempt, mandate, deployment.value, executor, expected);
    } else {
      done := Distrust(b, attempt, mandate, executor, expected);
      if done == Done && accepted {
        done := InvalidProviderResponse;
      }
    }
  }

  method SwapAndJournal(b: Backend, mandate: string, executor: string, expected: int, taken: Option<int>)
    returns (out: CasOutcome)
    requires b.Valid()
    modifies b.Repr()
    ensures b.Valid()
    ensures b.View() == SwappedStores(old(b.View()), mandate, executor, expected, taken)
    ensures out == CompletingSwap(old(b.View()), mandate, expected, taken).1
  {
    hide Backend.Valid, Backend.View;
    ghost var s := b.View();
    out := b.SwapMandate(mandate, expected, if taken.Some? then Consumed else Quarantined);
    assert s.audit + [] == s.audit;
    if out.Applied? {
      if taken.Some? {
        b.Log(Audit(Some(executor), "consume_mandate", "granted", mandate));
      } else {
        b.Log(Audit(Some(executor), "quarantine_mandate", "denied", mandate));
      }
    }
  }

  method Accept(b: Backend, attempt: string, mandate: string, deployment: int, executor: string, expected: int)
    returns (done: Completion)
    requires b.Valid()
    modifies b.Repr()
    ensures b.Valid()
    ensures b.View() == CompletedStores(old(b.View()), attempt, mandate, executor, expected, Some(deployment))
    ensures done == CompletedResult(old(b.View()), attempt, mandate, expected, true, Some(deployment))
  {
    hide Backend.Valid, Backend.View, SwappedStores;
    ghost var s := b.View();
    var ok := b.SetAttemptState(attempt, Accepted);
    if !ok {
      return Lost(AttemptMissing);
    }
    ok := b.SetAttemptDeployment(attempt, deployment);
    assert b.View().attempts
      == s.attempts[attempt := s.attempts[attempt].(state := Accepted, deployment := Some(deployment))];
    var swap := SwapAndJournal(b, mandate, executor, expected, Some(deployment));
    match swap
    case Missing => return Lost(MandateVanished);
    case Conflict(_) => return Lost(AlreadyConsumed);
    case Applied(_) => return Done;
  }

  method Distrust(b: Backend, attempt: string, mandate: string, executor: string, expected: int)
    returns (done: Completion)
    requires b.Valid()
    modifies b.Repr()
    ensures b.Valid()
    ensures b.View() == CompletedStores(old(b.View()), attempt, mandate, executor, expected, None)
    ensures done == CompletedResult(old(b.View()), attempt, mandate, expected, false, None)
  {
    hide Backend.Valid, Backend.View, SwappedStores;
    var ok := b.SetAttemptState(attempt, OutcomeAmbiguous);
    if !ok {
      return Lost(AttemptMissing);
    }
    var swap := SwapAndJournal(b, mandate, executor, expected, None);
    match swap
    case Missing => return Lost(MandateVanished);
    case Conflict(_) => return Done;
    case Applied(_) => return Done;
  }

  /** Called with a dispatch's own attempt, mandate and next version, the completion is the rest of its program. */
  lemma CompletionIsProgram(lib: Library, s: Stores, job: DispatchJob, answer: Option<int>)
    ensures var id, next := AttemptId(job.mandate), job.expected + 1;
      Leads(lib, s, DispatchOp(job, if answer.Some? then MarkAccepted(answer.value) else MarkAmbiguous),
            CompletedStores(s, id, job.mandate, job.executor, next, answer),
            DispatchOp(job, Finished(Ending(CompletedResult(s, id, job.mandate, next, answer.Some?, answer), answer))),
            answer)
  {
    hide Leads;
    if answer.Some? {
      AcceptanceIsProgram(lib, s, job, answer.value);
    } else {
      FailureIsProgram(lib, s, job);
    }
  }

  function SwapPc(taken: Option<int>): DispatchPc {
    if taken.Some? then Consume(taken.value) else Quarantine
  }

  lemma SwapMove(lib: Library, s: Stores, job: DispatchJob, taken: Option<int>)
    ensures var (table, out) := CompletingSwap(s, job.mandate, job.expected + 1, taken);
      && Perform(s, DispatchAwaits(lib, job, SwapPc(taken)), ANY) == (s.(mandates := table), Swapped(out))
      && DispatchResume(SwapPc(taken), Swapped(out))
         == if !out.Applied? then Finished(Ending(SwapResult(out, taken.Some?, taken), taken))
            else if taken.Some? then AuditConsume(taken.value) else AuditQuarantine
  {
  }

  // The completing swap and, if it applied, its audit event.
  lemma SwapIsProgram(lib: Library, s: Stores, op: Op, s1: Stores, job: DispatchJob, taken: Option<int>)
    requires Leads(lib, s, op, s1, DispatchOp(job, SwapPc(taken)), taken)
    ensures var out := CompletingSwap(s1, job.mandate, job.expected + 1, taken).1;
      Leads(lib, s, op, SwappedStores(s1, job.mandate, job.executor, job.expected + 1, taken),
            DispatchOp(job, Finished(Ending(SwapResult(out, taken.Some?, taken), taken))), taken)
  {
    hide Leads, CompletingSwap, SwapPc;
    SwapMove(lib, s1, job, taken);
    Onward(lib, s, op, s1, DispatchOp(job, SwapPc(taken)), ANY, taken);
    var (table, out) := CompletingSwap(s1, job.mandate, job.expected + 1, taken);
    var s2 := s1.(mandates := table);
    if out.Applied? {
      var last := if taken.Some? then AuditConsume(taken.value) else AuditQuarantine;
      Onward(lib, s, op, s2, DispatchOp(job, last), ANY, taken);
    } else {
      assert s1.audit + [] == s1.audit;
    }
  }

  lemma AcceptanceIsProgram(lib: Library, s: Stores, job: DispatchJob, d: int)
    ensures var id, next, t := AttemptId(job.mandate), job.expected + 1, Some(d);
      Leads(lib, s, DispatchOp(job, MarkAccepted(d)), CompletedStores(s, id, job.mandate, job.executor, next, t),
            DispatchOp(job, Finished(Ending(CompletedResult(s, id, job.mandate, next, true, t), t))), t)
  {
    hide Leads, SwappedStores;
    var op := DispatchOp(job, MarkAccepted(d));
    if AttemptId(job.mandate) !in s.attempts {
      Standing(lib, s, op, Some(d));
      Onward(lib, s, op, s, op, ANY, Some(d));
      assert s.(attempts := s.attempts) == s;
    } else {
      var s1 := Scenarios.Accepts(lib, s, job, d);
      SwapIsProgram(lib, s, op, s1, job, Some(d));
    }
  }

  lemma FailureIsProgram(lib: Library, s: Stores, job: DispatchJob)
    ensures var id, next := AttemptId(job.mandate), job.expected + 1;
      Leads(lib, s, DispatchOp(job, MarkAmbiguous), CompletedStores(s, id, job.mandate, job.executor, next, None),
            DispatchOp(job, Finished(Ending(CompletedResult(s, id, job.mandate, next, false, None), None))), None)
  {
    hide Leads, SwappedStores;
    var op := DispatchOp(job, MarkAmbiguous);
    if AttemptId(job.mandate) !in s.attempts {
      Standing(lib, s, op, None);
      Onward(lib, s, op, s, op, ANY, None);
      assert s.(attempts := s.attempts) == s;
    } else {
      var s1 := Scenarios.Distrusts(lib, s, job);
      SwapIsProgram(lib, s, op, s1, job, None);
    }
  }

  /** The whole flow; `answer` is what the provider closure returns. */
  method ReserveAndDispatch(b: Backend, lib: Library, job: DispatchJob, answer: Option<int>)
    returns (result: DispatchResult)
    requires b.Valid()
    modifies b.Repr()
    ensures b.Valid()
    ensures Leads(lib, old(b.View()), DispatchOp(job, CheckRequest), b.View(), DispatchOp(job, Finished(result)),
                  answer)
  {
    hide Leads, Perform, Backend.Valid, Backend.View, CompletedStores, CompletedResult;
    ghost var s, op := b.View(), DispatchOp(job, CheckRequest);
    var reservation := Reserve(b, lib, job, answer);
    if reservation.Refused? {
      return reservation.result;
    }
    ghost var at := b.View();
    var id := AttemptId(job.mandate);
    var deployment := b.CreateDeployment(ProviderCall(job.mandate, id, job.correlation, AttemptDigest(lib, job)),
                                         answer);
    Onward(lib, s, op, at, DispatchOp(job, CallProvider), Choice("", answer), answer);
    at := b.View();
    var done := CompleteDispatch(b, id, job.mandate, deployment.Some?, deployment, job.executor, job.expected + 1);
    result := Ending(done, deployment);
    CompletionIsProgram(lib, at, job, answer);
    LeadsOn(lib, s, op, at, DispatchOp(job, if answer.Some? then MarkAccepted(answer.value) else MarkAmbiguous),
            b.View(), DispatchOp(job, Finished(result)), answer);
  }
}
