/** `reconcile` and `abandon_unresolved` (crates/piteka-application/src/reconciliation.rs) over the in-memory stores. */
module ResolveUseCase {
  import opened Text
  import opened Records
  import opened Stores
  import opened ResolveProgram
  import opened Machine
  import opened Runs
  import opened Ports

  datatype Finding = Found(seen: Mandate, attempt: Attempt) | Denied(result: ResolveResult)

  // The reads both operations start with.
  method FindQuarantined(b: Backend, lib: Library, job: ResolveJob, ghost answer: Option<int>) returns (f: Finding)
    requires b.Valid()
    ensures b.Valid() && b.View() == old(b.View())
    ensures Leads(lib, b.View(), ResolveOp(job, ReadMandate), b.View(),
      ResolveOp(job, if f.Denied? then Closed(f.result)
                     else if job.reason.None? then AskProvider(f.seen, f.attempt)
                     else SwapResolved(f.seen, f.attempt, 0)), answer)
  {
    hide Leads, Perform, Backend.Valid, Backend.View;
    ghost var s, op := b.View(), ResolveOp(job, ReadMandate);
    Standing(lib, s, op, answer);
    var mandate := b.GetMandate(job.mandate);
    Onward(lib, s, op, s, op, ANY, answer);
    if mandate.None? {
      return Denied(MandateNotFound);
    }
    if mandate.value.state != Quarantined {
      if job.reason.None? && IsTerminal(mandate.value.state) {
        return Denied(AlreadyTerminal(mandate.value.state));
      }
      return Denied(NotQuarantined(Some(mandate.value.state)));
    }
    var attempt := b.FirstAmbiguous(job.mandate);
    Onward(lib, s, op, s, ResolveOp(job, FindAttempt(mandate.value)),
           Choice(if attempt.Some? then attempt.value.id else "", None), answer);
    if attempt.None? {
      return Denied(NotQuarantined(None));
    }
    return Found(mandate.value, attempt.value);
  }

  /** `answer` is the correlated deployment the provider reports; absence and provider errors look the same. */
  method Reconcile(b: Backend, lib: Library, job: ResolveJob, answer: Option<int>)
    returns (result: Option<ResolveResult>)
    requires b.Valid() && job.reason.None?
    modifies b.Repr()
    ensures b.Valid()
    ensures result.None? <==> IsBlank(job.operator)
    ensures result.None? <==> !AtStart(ResolveOp(job, ReadMandate))
    ensures if result.Some? then Leads(lib, old(b.View()), ResolveOp(job, ReadMandate), b.View(),
                                       ResolveOp(job, Closed(result.value)), answer)
            else b.View() == old(b.View())
  {
    hide Leads, Perform, Backend.Valid, Backend.View;
    if IsBlank(job.operator) {
      return None;
    }
    ghost var s, op := b.View(), ResolveOp(job, ReadMandate);
    var f := FindQuarantined(b, lib, job, answer);
    if f.Denied? {
      return Some(f.result);
    }
    Asked(lib, s, op, s, job, f.seen, f.attempt, answer);
    if answer.None? {
      return Some(Unresolved);
    }
    var closed := Accept(b, lib, job, f.seen, f.attempt, answer.value, answer);
    LeadsOn(lib, s, op, s, ResolveOp(job, SwapResolved(f.seen, f.attempt, answer.value)), b.View(),
            ResolveOp(job, Closed(closed)), answer);
    return Some(closed);
  }

  lemma Asked(lib: Library, s: Stores, op: Op, t: Stores, job: ResolveJob, seen: Mandate, a: Attempt,
              answer: Option<int>)
    requires Leads(lib, s, op, t, ResolveOp(job, AskProvider(seen, a)), answer)
    ensures Leads(lib, s, op, t,
                  ResolveOp(job, if answer.Some? then SwapResolved(seen, a, answer.value) else Closed(Unresolved)),
                  answer)
  {
    hide Leads;
    Onward(lib, s, op, t, ResolveOp(job, AskProvider(seen, a)), Choice("", answer), answer);
  }

  method Accept(b: Backend, lib: Library, job: ResolveJob, ghost seen: Mandate, a: Attempt, found: int,
                ghost answer: Option<int>) returns (result: ResolveResult)
    requires b.Valid() && job.reason.None?
    modifies b.Repr()
    ensures b.Valid()
    ensures Leads(lib, old(b.View()), ResolveOp(job, SwapResolved(seen, a, found)), b.View(),
                  ResolveOp(job, Closed(result)), answer)
  {
    hide Leads, Perform, Backend.Valid, Backend.View;
    ghost var s, op := b.View(), ResolveOp(job, SwapResolved(seen, a, found));
    Standing(lib, s, op, answer);
    var swap := b.SwapMandate(job.mandate, job.expected, Consumed);
    Onward(lib, s, op, s, op, ANY, answer);
    match swap
    case Missing => return MandateNotFound;
    case Conflict(current) => return CasConflict(current);
    case Applied(version) =>
      result := Correlate(b, lib, job, a, found, version, s, op, answer);
  }

  // The deployment id recovered from the provider is stored before the attempt counts as reconciled.
  method Correlate(b: Backend, lib: Library, job: ResolveJob, a: Attempt, found: int, version: int,
                   ghost s: Stores, ghost op: Op, ghost answer: Option<int>) returns (result: ResolveResult)
    requires b.Valid()
    requires Leads(lib, s, op, b.View(),
      ResolveOp(job, if a.deployment != Some(found) then RecordDeployment(a, found, version)
                else MarkReconciled(a, version)), answer)
    modifies b.Repr()
    ensures b.Valid() && Leads(lib, s, op, b.View(), ResolveOp(job, Closed(result)), answer)
  {
    hide Leads, Perform, Backend.Valid, Backend.View;
    if a.deployment != Some(found) {
      ghost var at := b.View();
      var stored := b.SetAttemptDeployment(a.id, found);
      Onward(lib, s, op, at, ResolveOp(job, RecordDeployment(a, found, version)), ANY, answer);
      if !stored {
        return AttemptLost;
      }
    }
    result := MarkAttempt(b, lib, job, a, version, s, op, answer);
  }

  method MarkAttempt(b: Backend, lib: Library, job: ResolveJob, a: Attempt, version: int,
                     ghost s: Stores, ghost op: Op, ghost answer: Option<int>) returns (result: ResolveResult)
    requires b.Valid() && Leads(lib, s, op, b.View(), ResolveOp(job, MarkReconciled(a, version)), answer)
    modifies b.Repr()
    ensures b.Valid() && Leads(lib, s, op, b.View(), ResolveOp(job, Closed(result)), answer)
  {
    hide Leads, Perform, Backend.Valid, Backend.View;
    ghost var at := b.View();
    var ok := b.SetAttemptState(a.id, ReconciledAccepted);
    Onward(lib, s, op, at, ResolveOp(job, MarkReconciled(a, version)), ANY, answer);
    if !ok {
      return AttemptLost;
    }
    at := b.View();
    b.Log(Audit(Some(job.operator), "reconciliation.accepted", "granted", job.mandate));
    Onward(lib, s, op, at, ResolveOp(job, AuditAccepted(a, version)), ANY, answer);
    return Resolved(a.id, version);
  }

  method AbandonUnresolved(b: Backend, lib: Library, job: ResolveJob) returns (result: Option<ResolveResult>)
    requires b.Valid() && job.reason.Some?
    modifies b.Repr()
    ensures b.Valid()
    ensures result.None? <==> IsBlank(job.operator) || IsBlank(job.reason.value)
    ensures result.None? <==> !AtStart(ResolveOp(job, ReadMandate))
    ensures if result.Some? then Leads(lib, old(b.View()), ResolveOp(job, ReadMandate), b.View(),
                                       ResolveOp(job, Closed(result.value)), None)
            else b.View() == old(b.View())
  {
    hide Leads, Perform, Backend.Valid, Backend.View;
    if IsBlank(job.operator) || IsBlank(job.reason.value) {
      return None;
    }
    ghost var s, op := b.View(), ResolveOp(job, ReadMandate);
    var f := FindQuarantined(b, lib, job, None);
    if f.Denied? {
      return Some(f.result);
    }
    var closed := Abandon(b, lib, job, f.seen, f.attempt);
    LeadsOn(lib, s, op, s, ResolveOp(job, SwapResolved(f.seen, f.attempt, 0)), b.View(), ResolveOp(job, Closed(closed)),
            None);
    return Some(closed);
  }

  method Abandon(b: Backend, lib: Library, job: ResolveJob, ghost seen: Mandate, a: Attempt)
    returns (result: ResolveResult)
    requires b.Valid() && job.reason.Some?
    modifies b.Repr()
    ensures b.Valid()
    ensures Leads(lib, old(b.View()), ResolveOp(job, SwapResolved(seen, a, 0)), b.View(),
                  ResolveOp(job, Closed(result)), None)
  {
    hide Leads, Perform, Backend.Valid, Backend.View, UnknownReceipt;
    ghost var s, op := b.View(), ResolveOp(job, SwapResolved(seen, a, 0));
    Standing(lib, s, op, None);
    var swap := b.SwapMandate(job.mandate, job.expected, Abandoned);
    Onward(lib, s, op, s, op, ANY, None);
    match swap
    case Missing => return MandateNotFound;
    case Conflict(current) => return CasConflict(current);
    case Applied(version) =>
      ghost var at := b.View();
      var ok := b.SetAttemptState(a.id, AbandonedAmbiguous);
      Onward(lib, s, op, at, ResolveOp(job, MarkAbandoned(a, version)), ANY, None);
      if !ok {
        return AttemptLost;
      }
      at := b.View();
      ok := b.PutReceipt(UnknownReceipt(job, a));
      Onward(lib, s, op, at, ResolveOp(job, InsertUnknown(a, version)), ANY, None);
      if !ok {
        return ReceiptExists;
      }
      at := b.View();
      b.Log(Audit(Some(job.operator), "reconciliation.abandoned", "abandoned", job.mandate));
      Onward(lib, s, op, at, ResolveOp(job, AuditAbandoned(a, version)), ANY, None);
      return Resolved(a.id, version);
  }
}
