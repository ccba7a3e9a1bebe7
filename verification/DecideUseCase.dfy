/**
 `propose`, `approve`, `reject` and `revoke` (crates/piteka-application/src/action_request.rs) over the in-memory
 stores.
 */
module DecideUseCase {
  import opened Records
  import opened Stores
  import opened MemoryStores
  import opened DecideProgram
  import opened Machine
  import opened Runs
  import opened Ports

  /** False: the id is empty or taken, and nothing changed. */
  method Propose(b: Backend, lib: Library, job: ProposeJob) returns (created: bool)
    requires b.Valid()
    modifies b.Repr()
    ensures b.Valid()
    ensures Leads(lib, old(b.View()), ProposeOp(job, InsertRequest), b.View(), ProposeOp(job, Proposed(created)), None)
  {
    hide Leads, Perform, Backend.Valid, Backend.View;
    ghost var s, op := b.View(), ProposeOp(job, InsertRequest);
    Standing(lib, s, op, None);
    created := b.PutRequest(job.request, ActionRequest(job.requestedBy, job.intent, Pending, job.now));
    Onward(lib, s, op, s, op, ANY, None);
    if created {
      ghost var at := b.View();
      b.Log(Audit(Some(job.requestedBy), "propose_action", "granted", job.request));
      Onward(lib, s, op, at, ProposeOp(job, AuditProposal), ANY, None);
    }
  }

  /** The source's results carry the request without its version. */
  datatype Verdict = Refused(reason: DecideResult) | Granted(request: ActionRequest)

  ghost predicate Says(v: Verdict, result: DecideResult) {
    match result
    case Decided(r) => v == Granted(ActionRequest(r.requestedBy, r.intent, r.status, r.createdAt))
    case _ => v == Refused(result)
  }

  method Decide(b: Backend, lib: Library, job: DecideJob) returns (v: Verdict, ghost result: DecideResult)
    requires b.Valid()
    modifies b.Repr()
    ensures b.Valid()
    ensures Leads(lib, old(b.View()), DecideOp(job, ReadRequest), b.View(), DecideOp(job, Settled(result)), None)
    ensures Says(v, result)
  {
    hide Leads, Perform, Backend.Valid, Backend.View;
    ghost var s, op := b.View(), DecideOp(job, ReadRequest);
    Standing(lib, s, op, None);
    ghost var before := Lookup(s.requests, job.request);
    var request := b.GetRequest(job.request);
    Onward(lib, s, op, s, op, ANY, None);
    if request.None? {
      return Refused(NoRequest), NoRequest;
    }
    if request.value.status != Before(job.verb) {
      return Refused(InvalidTransition(request.value.status)), InvalidTransition(request.value.status);
    }
    var swap := b.SwapRequest(job.request, job.expected, After(job.verb));
    Onward(lib, s, op, s, DecideOp(job, SwapStatus(before.value.version)), ANY, None);
    match swap
    case Missing => return Refused(NoRequest), NoRequest;
    case Conflict(current) => return Refused(VersionConflict(current)), VersionConflict(current);
    case Applied(_) => v, result := Journal(b, lib, job, s);
  }

  // What follows the winning swap; a revocation stores no decision.
  method Journal(b: Backend, lib: Library, job: DecideJob, ghost s: Stores)
    returns (v: Verdict, ghost result: DecideResult)
    requires b.Valid()
    requires Leads(lib, s, DecideOp(job, ReadRequest), b.View(),
                   DecideOp(job, if job.verb == Revoke then AuditDecision else InsertDecision), None)
    modifies b.Repr()
    ensures b.Valid()
    ensures Leads(lib, s, DecideOp(job, ReadRequest), b.View(), DecideOp(job, Settled(result)), None)
    ensures Says(v, result)
  {
    hide Leads, Perform, Backend.Valid, Backend.View;
    if job.verb != Revoke {
      ghost var at := b.View();
      var ok := b.PutDecision(DecisionId(job.request), NewDecision(job));
      Onward(lib, s, DecideOp(job, ReadRequest), at, DecideOp(job, InsertDecision), ANY, None);
      if !ok {
        return Refused(DecisionExists), DecisionExists;
      }
    }
    v, result := Report(b, lib, job, s);
  }

  method Report(b: Backend, lib: Library, job: DecideJob, ghost s: Stores)
    returns (v: Verdict, ghost result: DecideResult)
    requires b.Valid() && Leads(lib, s, DecideOp(job, ReadRequest), b.View(), DecideOp(job, AuditDecision), None)
    modifies b.Repr()
    ensures b.Valid()
    ensures Leads(lib, s, DecideOp(job, ReadRequest), b.View(), DecideOp(job, Settled(result)), None)
    ensures Says(v, result)
  {
    hide Leads, Perform, Backend.Valid, Backend.View;
    ghost var op, at := DecideOp(job, ReadRequest), b.View();
    var word := if job.verb == Reject then "denied" else "granted";
    b.Log(Audit(Some(job.actor), ActionName(job.verb), word, job.request));
    Onward(lib, s, op, at, DecideOp(job, AuditDecision), ANY, None);
    at := b.View();
    var request := b.GetRequest(job.request);
    Onward(lib, s, op, at, DecideOp(job, Refresh), ANY, None);
    ghost var after := Lookup(at.requests, job.request);
    v := if request.Some? then Granted(request.value) else Refused(NoRequest);
    result := if after.Some? then Decided(after.value) else NoRequest;
  }
}
