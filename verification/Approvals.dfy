/** Approval in every run without version lookahead: who decides a request, and what the decision store says. */
module Approvals {
  import opened Records
  import opened Stores
  import opened DecideProgram
  import opened Machine
  import opened NoLookahead

  datatype Desk = Desk(request: Option<Request>, decision: Option<Decision>)

  function DeskOf(s: Stores, r: string): Desk {
    Desk(Lookup(s.requests, r), Lookup(s.decisions, DecisionId(r)))
  }

  predicate Is(d: Desk, status: RequestStatus, version: int) {
    d.request.Some? && d.request.value.status == status && d.request.value.version == version
  }

  function Stage(d: Desk): int { if d.request.None? then 0 else d.request.value.version }

  /** Pending ⇔ 1, approved or rejected ⇔ 2, revoked ⇔ 3; a stored decision says what was decided. */
  predicate DeskOk(d: Desk) {
    && (d.request.None? || Is(d, Pending, 1) || Is(d, Approved, 2) || Is(d, Rejected, 2) || Is(d, Revoked, 3))
    && (d.decision.Some? ==> 2 <= Stage(d) && (d.decision.value.approved <==> d.request.value.status != Rejected))
  }

  /** Counters reached only by the swap that decided the request. */
  predicate Deciding(job: DecideJob, pc: DecidePc) {
    job.verb != Revoke && (pc.InsertDecision? || pc.AuditDecision? || pc.Refresh?
                           || (pc.Settled? && pc.result.Decided?))
  }

  predicate Revoking(job: DecideJob, pc: DecidePc) {
    job.verb == Revoke && (pc.AuditDecision? || pc.Refresh? || (pc.Settled? && pc.result.Decided?))
  }

  predicate DecideFits(d: Desk, job: DecideJob, pc: DecidePc) {
    && (Deciding(job, pc) ==> 2 <= Stage(d) && (job.verb == Reject <==> Is(d, Rejected, 2)))
    && (Revoking(job, pc) ==> Stage(d) == 3)
    && (pc.SwapStatus? ==>
          1 <= pc.seen <= Stage(d) && (pc.seen == Stage(d) ==> d.request.value.status == Before(job.verb)))
    && (pc.InsertDecision? ==> job.verb != Revoke && d.decision.None?)
    && (Deciding(job, pc) && d.decision.Some? ==> IsDecisionOf(d.decision.value, job))
    && (pc.Settled? ==> !pc.result.DecisionExists?)
  }

  /** How one move of a deciding operation may change its request's desk. */
  predicate DecideEffect(d: Desk, job: DecideJob, pc: DecidePc, d': Desk, next: DecidePc) {
    && DeskOk(d') && DecideFits(d', job, next)
    && (Deciding(job, next) && !Deciding(job, pc) ==> Stage(d) == 1)
    && (Revoking(job, next) && !Revoking(job, pc) ==> Stage(d) == 2)
    && (Deciding(job, pc) || Stage(d) < 2 <= Stage(d') ==> Deciding(job, next))
    && (2 <= Stage(d') && d'.decision.None? ==>
          next.InsertDecision? || (!pc.InsertDecision? && 2 <= Stage(d) && d.decision.None?))
    && DeskChanges(d, d', pc.InsertDecision?)
  }

  predicate DeskChanges(d: Desk, d': Desk, filing: bool) {
    || d' == d
    || (Stage(d) == 0 && Stage(d') == 1 && d'.decision == d.decision)
    || (Stage(d) == 1 && Stage(d') == 2 && d'.decision == d.decision)
    || (Is(d, Approved, 2) && Is(d', Revoked, 3) && d'.decision == d.decision)
    || (filing && d'.request == d.request)
  }

  predicate DeskPerforms(d: Desk, r: string, a: Await, d': Desk, reply: Reply) {
    match a
    case GetRequest(id) => d' == d && (id == r ==> reply == GotRequest(d.request))
    case SwapRequest(id, expected, status) => id == r ==>
      reply == Swapped(if d.request.None? then Missing
                       else if d.request.value.version == expected then Applied(expected + 1)
                       else Conflict(d.request.value.version))
      && d' == if d.request.Some? && d.request.value.version == expected
               then d.(request := Some(d.request.value.(status := status, version := expected + 1))) else d
    case PutDecision(id, x) => id == DecisionId(r) ==>
      reply == Stored(d.decision.None?) && d' == if d.decision.None? then d.(decision := Some(x)) else d
    case Log(_) => d' == d && reply == Logged
    case _ => true
  }

  lemma PerformOnDesk(s: Stores, a: Await, c: Choice, r: string)
    ensures var (t, reply) := Perform(s, a, c); DeskPerforms(DeskOf(s, r), r, a, DeskOf(t, r), reply)
  {
  }

  lemma DecideStep(d: Desk, job: DecideJob, pc: DecidePc, d': Desk, reply: Reply)
    requires DeskOk(d) && DecideFits(d, job, pc) && (pc.SwapStatus? ==> job.expected <= pc.seen)
    requires DeskPerforms(d, job.request, DecideAwaits(job, pc), d', reply)
    requires pc.Settled? ==> d' == d && reply == NoReply
    ensures DecideEffect(d, job, pc, d', DecideResume(job, pc, reply))
  {
  }

  lemma BystandingDecision(d: Desk, d': Desk, filing: bool, job: DecideJob, pc: DecidePc)
    requires DeskOk(d) && DeskOk(d') && DecideFits(d, job, pc) && DeskChanges(d, d', filing)
    requires filing ==> !Deciding(job, pc)
    ensures DecideFits(d', job, pc)
  {
  }

  // ----- The whole run

  predicate DecidingOp(op: Op, r: string) { op.DecideOp? && op.decide.request == r && Deciding(op.decide, op.apc) }
  predicate RevokingOp(op: Op, r: string) { op.DecideOp? && op.decide.request == r && Revoking(op.decide, op.apc) }
  predicate FilingOp(op: Op, r: string) { op.DecideOp? && op.decide.request == r && op.apc.InsertDecision? }

  ghost predicate Desks(s: Stores) { forall r :: DeskOk(DeskOf(s, r)) }

  ghost predicate OpOnDesk(s: Stores, op: Op) {
    op.DecideOp? ==> DecideFits(DeskOf(s, op.decide.request), op.decide, op.apc)
  }

  ghost predicate OneDecider(ops: seq<Op>) {
    && (forall i, j, r :: 0 <= i < j < |ops| && DecidingOp(ops[i], r) ==> !DecidingOp(ops[j], r))
    && (forall i, j, r :: 0 <= i < j < |ops| && RevokingOp(ops[i], r) ==> !RevokingOp(ops[j], r))
  }

  /** A decided request without a stored decision has the operation that will file it in flight. */
  ghost predicate Filed(w: World) {
    forall r :: 2 <= Stage(DeskOf(w.s, r)) && DeskOf(w.s, r).decision.None? ==>
      exists i :: 0 <= i < |w.ops| && FilingOp(w.ops[i], r)
  }

  /** Every decided request has the operation that decided it. */
  ghost predicate Deciders(w: World) {
    forall r :: 2 <= Stage(DeskOf(w.s, r)) ==> exists i :: 0 <= i < |w.ops| && DecidingOp(w.ops[i], r)
  }

  ghost predicate Office(w: World) {
    && Desks(w.s) && OneDecider(w.ops) && Filed(w) && Deciders(w)
    && forall i :: 0 <= i < |w.ops| ==> OpOnDesk(w.s, w.ops[i])
  }

  function DeskTouched(op: Op): Option<string> {
    match op
    case DecideOp(job, _) => Some(job.request)
    case ProposeOp(job, pc) => if pc.InsertRequest? then Some(job.request) else None
    case _ => None
  }

  lemma OtherDesks(lib: Library, s: Stores, op: Op, c: Choice, r: string)
    requires DeskTouched(op) != Some(r)
    ensures DeskOf(Perform(s, Awaits(lib, op), c).0, r) == DeskOf(s, r)
  {
    if op.DecideOp? {
      DecisionIdInjective(op.decide.request, r);
    }
    PerformOffDesk(s, Awaits(lib, op), c, r);
  }

  lemma PerformOffDesk(s: Stores, a: Await, c: Choice, r: string)
    requires !(a.PutRequest? && a.id == r) && !(a.SwapRequest? && a.id == r)
      && !(a.PutDecision? && a.id == DecisionId(r))
    ensures DeskOf(Perform(s, a, c).0, r) == DeskOf(s, r)
  {
  }

  ghost predicate DeskMoved(s: Stores, op: Op, t: Stores, next: Op) {
    && (forall r :: DeskTouched(op) != Some(r) ==> DeskOf(t, r) == DeskOf(s, r))
    && next.DecideOp? == op.DecideOp?
    && match op
       case DecideOp(job, pc) =>
         next.decide == job && DecideEffect(DeskOf(s, job.request), job, pc, DeskOf(t, job.request), next.apc)
       case ProposeOp(job, pc) => pc.InsertRequest? ==>
         DeskOf(t, job.request) == DeskOf(s, job.request)
         || (Stage(DeskOf(s, job.request)) == 0 && Is(DeskOf(t, job.request), Pending, 1)
             && DeskOf(t, job.request).decision == DeskOf(s, job.request).decision)
       case _ => true
  }

  lemma ExecMovesDesk(lib: Library, s: Stores, op: Op, c: Choice)
    requires Desks(s) && OpOnDesk(s, op) && Polite(op)
    ensures var (t, next) := Exec(lib, s, op, c); DeskMoved(s, op, t, next)
  {
    var a := Awaits(lib, op);
    var (t, reply) := Perform(s, a, c);
    forall r | DeskTouched(op) != Some(r) ensures DeskOf(t, r) == DeskOf(s, r) {
      OtherDesks(lib, s, op, c, r);
    }
    match op
    case DecideOp(job, pc) =>
      PerformOnDesk(s, a, c, job.request);
      assert DeskOk(DeskOf(s, job.request));
      DecideStep(DeskOf(s, job.request), job, pc, DeskOf(t, job.request), reply);
    case _ =>
  }

  ghost predicate DeskMoveOf(w: World, i: nat, v: World) {
    && i < |w.ops| && |v.ops| == |w.ops| && v.ops == w.ops[i := v.ops[i]]
    && DeskMoved(w.s, w.ops[i], v.s, v.ops[i])
  }

  lemma DeskChangeOfMove(w: World, i: nat, v: World, r: string)
    requires Office(w) && DeskMoveOf(w, i, v)
    ensures DeskOk(DeskOf(v.s, r)) && DeskChanges(DeskOf(w.s, r), DeskOf(v.s, r), FilingOp(w.ops[i], r))
  {
    assert DeskOk(DeskOf(w.s, r));
  }

  lemma DecidersKept(w: World, i: nat, v: World, j: nat, r: string)
    requires Office(w) && DeskMoveOf(w, i, v) && j < |w.ops| && j != i
    ensures DecidingOp(v.ops[i], r) ==> !DecidingOp(w.ops[j], r)
    ensures RevokingOp(v.ops[i], r) ==> !RevokingOp(w.ops[j], r)
  {
    assert OpOnDesk(w.s, w.ops[j]);
  }

  lemma FilerFound(w: World, i: nat, v: World, r: string)
    requires Office(w) && DeskMoveOf(w, i, v)
    requires 2 <= Stage(DeskOf(v.s, r)) && DeskOf(v.s, r).decision.None?
    ensures exists j :: 0 <= j < |v.ops| && FilingOp(v.ops[j], r)
  {
    if !FilingOp(v.ops[i], r) {
      assert DeskOk(DeskOf(w.s, r));
      assert 2 <= Stage(DeskOf(w.s, r)) && DeskOf(w.s, r).decision.None?;
      var j :| 0 <= j < |w.ops| && FilingOp(w.ops[j], r);
      assert FilingOp(v.ops[j], r);
    }
  }

  lemma DeciderFound(w: World, i: nat, v: World, r: string)
    requires Office(w) && DeskMoveOf(w, i, v) && 2 <= Stage(DeskOf(v.s, r))
    ensures exists j :: 0 <= j < |v.ops| && DecidingOp(v.ops[j], r)
  {
    if !DecidingOp(v.ops[i], r) {
      DeskChangeOfMove(w, i, v, r);
      assert 2 <= Stage(DeskOf(w.s, r));
      var j :| 0 <= j < |w.ops| && DecidingOp(w.ops[j], r);
      assert DecidingOp(v.ops[j], r);
    }
  }

  lemma MoveKeepsOffice(w: World, i: nat, v: World)
    requires Office(w) && DeskMoveOf(w, i, v)
    ensures Office(v)
  {
    forall r ensures DeskOk(DeskOf(v.s, r)) { DeskChangeOfMove(w, i, v, r); }
    forall a, b, r | 0 <= a < b < |v.ops|
      ensures DecidingOp(v.ops[a], r) ==> !DecidingOp(v.ops[b], r)
      ensures RevokingOp(v.ops[a], r) ==> !RevokingOp(v.ops[b], r)
    {
      if a == i { DecidersKept(w, i, v, b, r); } else if b == i { DecidersKept(w, i, v, a, r); }
    }
    forall r | 2 <= Stage(DeskOf(v.s, r)) && DeskOf(v.s, r).decision.None?
      ensures exists j :: 0 <= j < |v.ops| && FilingOp(v.ops[j], r)
    {
      FilerFound(w, i, v, r);
    }
    forall r | 2 <= Stage(DeskOf(v.s, r)) ensures exists j :: 0 <= j < |v.ops| && DecidingOp(v.ops[j], r) {
      DeciderFound(w, i, v, r);
    }
    forall j | 0 <= j < |v.ops| ensures OpOnDesk(v.s, v.ops[j]) { DeskFootingKept(w, i, v, j); }
  }

  lemma DeskFootingKept(w: World, i: nat, v: World, j: nat)
    requires Office(w) && DeskMoveOf(w, i, v) && j < |w.ops|
    ensures OpOnDesk(v.s, v.ops[j])
  {
    if j != i && w.ops[j].DecideOp? {
      var job, pc := w.ops[j].decide, w.ops[j].apc;
      var r := job.request;
      assert OpOnDesk(w.s, w.ops[j]) && DeskOk(DeskOf(w.s, r));
      DeskChangeOfMove(w, i, v, r);
      if FilingOp(w.ops[i], r) {
        assert OpOnDesk(w.s, w.ops[i]);
        assert DecidingOp(w.ops[i], r);
        assert !DecidingOp(w.ops[j], r);
      }
      BystandingDecision(DeskOf(w.s, r), DeskOf(v.s, r), FilingOp(w.ops[i], r), job, pc);
    }
  }

  lemma StepKeepsOffice(lib: Library, w: World, step: Step)
    requires Office(w) && PoliteWorld(w)
    ensures Office(Apply(lib, w, step))
  {
    match step
    case Issue(_) => OfficeElsewhere(w, Apply(lib, w, step));
    case Start(op) =>
      if AtStart(op) {
        StartKeepsOffice(w, op);
      }
    case Move(i, c) =>
      if i < |w.ops| {
        var (t, next) := Exec(lib, w.s, w.ops[i], c);
        assert OpOnDesk(w.s, w.ops[i]);
        ExecMovesDesk(lib, w.s, w.ops[i], c);
        MoveKeepsOffice(w, i, World(t, w.ops[i := next]));
      }
  }

  lemma OfficeElsewhere(w: World, v: World)
    requires Office(w) && v == w.(s := w.s.(mandates := v.s.mandates))
    ensures Office(v)
  {
    assert forall r :: DeskOf(v.s, r) == DeskOf(w.s, r);
    assert forall i :: 0 <= i < |w.ops| ==> OpOnDesk(w.s, w.ops[i]);
  }

  lemma StartKeepsOffice(w: World, op: Op)
    requires Office(w) && AtStart(op)
    ensures Office(w.(ops := w.ops + [op]))
  {
    var v := w.(ops := w.ops + [op]);
    assert forall j :: 0 <= j < |w.ops| ==> v.ops[j] == w.ops[j];
    assert v.ops[|w.ops|] == op;
    forall r | 2 <= Stage(DeskOf(v.s, r)) && DeskOf(v.s, r).decision.None?
      ensures exists j :: 0 <= j < |v.ops| && FilingOp(v.ops[j], r)
    {
      var j :| 0 <= j < |w.ops| && FilingOp(w.ops[j], r);
      assert FilingOp(v.ops[j], r);
    }
    forall r | 2 <= Stage(DeskOf(v.s, r)) ensures exists j :: 0 <= j < |v.ops| && DecidingOp(v.ops[j], r) {
      var j :| 0 <= j < |w.ops| && DecidingOp(w.ops[j], r);
      assert DecidingOp(v.ops[j], r);
    }
  }

  /** The approval invariant holds at every moment of every run without lookahead. */
  lemma {:induction false} OfficeAlways(lib: Library, steps: seq<Step>)
    requires PoliteRun(lib, steps)
    ensures Office(Reach(lib, steps))
  {
    if steps != [] {
      var n := |steps| - 1;
      PoliteRunPrefix(lib, steps, n);
      OfficeAlways(lib, steps[..n]);
      StepKeepsOffice(lib, Reach(lib, steps[..n]), steps[n]);
    }
  }

  /** Status and version determine each other. */
  lemma {:induction false} StatusIsVersion(lib: Library, steps: seq<Step>, r: string)
    requires PoliteRun(lib, steps) && r in Reach(lib, steps).s.requests
    ensures var q := Reach(lib, steps).s.requests[r];
      && (q.status == Pending <==> q.version == 1)
      && (q.status in {Approved, Rejected} <==> q.version == 2)
      && (q.status == Revoked <==> q.version == 3)
  {
    OfficeAlways(lib, steps);
    assert DeskOk(DeskOf(Reach(lib, steps).s, r));
  }

  /** Two calls never both decide a request, and a decision insert never finds its key taken. */
  lemma {:induction false} NoSecondDecider(lib: Library, steps: seq<Step>, i: nat, j: nat, r: string)
    requires PoliteRun(lib, steps) && i < |Reach(lib, steps).ops| && j < |Reach(lib, steps).ops|
    requires DecidingOp(Reach(lib, steps).ops[i], r) && DecidingOp(Reach(lib, steps).ops[j], r)
    ensures i == j
    ensures Reach(lib, steps).ops[i].apc.InsertDecision? ==> DecisionId(r) !in Reach(lib, steps).s.decisions
  {
    OfficeAlways(lib, steps);
    assert OpOnDesk(Reach(lib, steps).s, Reach(lib, steps).ops[i]);
  }

  /**
   Exactly one caller decided a request that is no longer pending, with the verdict its status started from, and the
   stored decision names that caller, its verdict, intent and time.
   */
  lemma {:induction false} OneDecision(lib: Library, steps: seq<Step>, r: string) returns (i: nat)
    requires PoliteRun(lib, steps) && r in Reach(lib, steps).s.requests
    requires Reach(lib, steps).s.requests[r].status != Pending
    ensures i < |Reach(lib, steps).ops| && DecidingOp(Reach(lib, steps).ops[i], r)
    ensures forall j :: 0 <= j < |Reach(lib, steps).ops| && DecidingOp(Reach(lib, steps).ops[j], r) ==> j == i
    ensures Reach(lib, steps).ops[i].decide.verb == Reject <==> Reach(lib, steps).s.requests[r].status == Rejected
    ensures var decisions := Reach(lib, steps).s.decisions;
      && (Reach(lib, steps).ops[i].apc.InsertDecision? <==> "dec-" + r !in decisions)
      && ("dec-" + r in decisions ==> IsDecisionOf(decisions["dec-" + r], Reach(lib, steps).ops[i].decide))
  {
    OfficeAlways(lib, steps);
    var w := Reach(lib, steps);
    assert DeskOk(DeskOf(w.s, r));
    i :| 0 <= i < |w.ops| && DecidingOp(w.ops[i], r);
    assert OpOnDesk(w.s, w.ops[i]);
  }

  /** Once nobody is about to file a decision for a decided request, the stored decision agrees with the status. */
  lemma {:induction false} DecisionAgreesAtRest(lib: Library, steps: seq<Step>, r: string)
    requires PoliteRun(lib, steps) && r in Reach(lib, steps).s.requests
    requires forall i :: 0 <= i < |Reach(lib, steps).ops| ==> !FilingOp(Reach(lib, steps).ops[i], r)
    ensures var s := Reach(lib, steps).s;
      && (DecisionId(r) in s.decisions <==> s.requests[r].status != Pending)
      && (DecisionId(r) in s.decisions ==> (s.decisions[DecisionId(r)].approved
                                            <==> s.requests[r].status in {Approved, Revoked}))
  {
    OfficeAlways(lib, steps);
    assert DeskOk(DeskOf(Reach(lib, steps).s, r));
  }
}
