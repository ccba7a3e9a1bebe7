/**
 No simulated success: a stored deployment id and a consumed mandate go back to an answer of the provider, in every
 run; and what a reconciliation consumes is what it was told.
 */
module Answers {
  import opened Records
  import opened Stores
  import opened DispatchProgram
  import opened ResolveProgram
  import opened Machine
  import opened Growth
  import opened Lifecycle
  import opened NoLookahead
  import opened MandateLife
  import opened AnyVersion
  import opened Evidence

  // ----- In every run

  /** The operation awaits the provider's word about attempt id of mandate m. */
  predicate Asks(op: Op, m: string, id: string) {
    match op
    case DispatchOp(job, pc) => pc.CallProvider? && job.mandate == m && AttemptId(m) == id
    case ResolveOp(job, AskProvider(_, a)) => job.reason.None? && job.mandate == m && a.id == id
    case _ => false
  }

  /** The operation acts on deployment id d for that attempt. */
  predicate Carries(op: Op, m: string, id: string, d: int) {
    match op
    case DispatchOp(job, pc) =>
      job.mandate == m && AttemptId(m) == id && AfterYes(pc, d)
    case ResolveOp(job, SwapResolved(_, a, found)) =>
      job.reason.None? && job.mandate == m && a.id == id && found == d
    case ResolveOp(job, RecordDeployment(a, found, _)) => job.mandate == m && a.id == id && found == d
    case _ => false
  }

  /** At step k an operation asked the provider about that attempt and was told d. */
  ghost predicate Told(lib: Library, steps: seq<Step>, k: nat, m: string, id: string, d: int) {
    && k < |steps| && steps[k].Move? && steps[k].who < |Reach(lib, steps[..k]).ops|
    && Asks(Reach(lib, steps[..k]).ops[steps[k].who], m, id) && steps[k].choice.answer == Some(d)
  }

  lemma CarriesByAnswer(lib: Library, s: Stores, op: Op, c: Choice, m: string, id: string, d: int)
    requires Carries(Exec(lib, s, op, c).1, m, id, d)
    ensures Carries(op, m, id, d) || (Asks(op, m, id) && c.answer == Some(d))
  {
    hide DispatchAwaits, DispatchResume, Perform;
    var (t, reply) := Perform(s, Awaits(lib, op), c);
    AnswerIsChoice(s, Awaits(lib, op), c);
    match op
    case DispatchOp(job, pc) => DispatchTold(lib, job, pc, reply, d);
    case _ =>
  }

  lemma AnswerIsChoice(s: Stores, a: Await, c: Choice)
    ensures var reply := Perform(s, a, c).1; reply.Answered? ==> reply.id == c.answer
  {
  }

  lemma DispatchTold(lib: Library, job: DispatchJob, pc: DispatchPc, reply: Reply, d: int)
    ensures AfterYes(DispatchResume(pc, reply), d) ==>
      AfterYes(pc, d) || (pc.CallProvider? && reply == Answered(Some(d)))
  {
  }

  lemma ToldInPrefix(lib: Library, steps: seq<Step>, n: nat, k: nat, m: string, id: string, d: int)
    requires n <= |steps| && Told(lib, steps[..n], k, m, id, d)
    ensures Told(lib, steps, k, m, id, d)
  {
    hide Reach;
    assert steps[..n][..k] == steps[..k];
  }

  /** Whoever acts on a deployment id was told it, or took it over from the counter before that was. */
  lemma {:induction false} CarriedWasTold(lib: Library, steps: seq<Step>, i: nat, m: string, id: string, d: int)
    returns (k: nat)
    requires i < |Reach(lib, steps).ops| && Carries(Reach(lib, steps).ops[i], m, id, d)
    ensures Told(lib, steps, k, m, id, d) && steps[k].who == i
  {
    hide Perform, Awaits, Resume, Carries, Asks, Exec, AtStart;
    var n := |steps| - 1;
    var w, step := Reach(lib, steps[..n]), steps[n];
    if i < |w.ops| && Carries(w.ops[i], m, id, d) {
      k := CarriedWasTold(lib, steps[..n], i, m, id, d);
      ToldInPrefix(lib, steps, n, k, m, id, d);
    } else {
      k := n;
      NobodyStartsTold(step, m, id, d);
      CarriesByAnswer(lib, w.s, w.ops[i], step.choice, m, id, d);
    }
  }

  lemma NobodyStartsTold(step: Step, m: string, id: string, d: int)
    ensures step.Start? && AtStart(step.op) ==> !Carries(step.op, m, id, d)
  {
  }

  // Only an operation that carries the id writes it to the attempt.
  lemma WriterCarries(lib: Library, s: Stores, op: Op, c: Choice, id: string, d: int)
    requires Keyed(s.attempts) && OpHolds(lib, s, op)
    requires var t := Perform(s, Awaits(lib, op), c).0;
      id in t.attempts && t.attempts[id].deployment == Some(d)
      && (id in s.attempts ==> s.attempts[id].deployment != Some(d))
    ensures id in s.attempts && Carries(op, s.attempts[id].mandate, id, d)
  {
    hide Perform, DeliverHolds, Keyed;
    var a := Awaits(lib, op);
    IdComesBySet(s, a, c, id, d);
    match op
    case DispatchOp(job, pc) =>
      OwnerIsNamed(s, job.mandate, id);
    case ResolveOp(job, pc) =>
    case _ =>
  }

  lemma IdComesBySet(s: Stores, a: Await, c: Choice, id: string, d: int)
    requires var t := Perform(s, a, c).0;
      id in t.attempts && t.attempts[id].deployment == Some(d)
      && (id in s.attempts ==> s.attempts[id].deployment != Some(d))
    requires a.PutAttempt? ==> a.attempt.deployment.None?
    ensures id in s.attempts && a == SetAttemptDeployment(id, d)
  {
  }

  lemma OwnerIsNamed(s: Stores, m: string, id: string)
    requires Keyed(s.attempts) && id in s.attempts
    ensures id == AttemptId(m) ==> s.attempts[id].mandate == m
  {
    AttemptIdInjective(s.attempts[id].mandate, m);
  }

  /**
   In every run, with any versions and any crashes: a deployment id in the journal was given by the provider, when it
   was called for that attempt or asked about it.
   */
  lemma {:induction false} StoredIdWasTold(lib: Library, steps: seq<Step>, id: string) returns (k: nat)
    requires id in Reach(lib, steps).s.attempts && Reach(lib, steps).s.attempts[id].deployment.Some?
    ensures var a := Reach(lib, steps).s.attempts[id]; Told(lib, steps, k, a.mandate, id, a.deployment.value)
  {
    hide Apply, Told, OpHolds, Carries;
    var n := |steps| - 1;
    var w, step := Reach(lib, steps[..n]), steps[n];
    var now := Reach(lib, steps).s.attempts[id];
    if id in w.s.attempts && w.s.attempts[id].deployment == now.deployment {
      k := StoredIdWasTold(lib, steps[..n], id);
      MandateStays(lib, w, step, id);
      ToldInPrefix(lib, steps, n, k, now.mandate, id, now.deployment.value);
    } else {
      EvidenceAlways(lib, steps[..n]);
      StepWrites(lib, w, step, id, now.deployment.value);
      MandateStays(lib, w, step, id);
      k := CarriedWasTold(lib, steps[..n], step.who, now.mandate, id, now.deployment.value);
      ToldInPrefix(lib, steps, n, k, now.mandate, id, now.deployment.value);
    }
  }

  lemma MandateStays(lib: Library, w: World, step: Step, id: string)
    requires id in w.s.attempts
    ensures var t := Apply(lib, w, step).s; id in t.attempts && t.attempts[id].mandate == w.s.attempts[id].mandate
  {
    hide Apply;
    StepGrows(lib, w, step);
    assert NewerAttempt(w.s.attempts[id], Apply(lib, w, step).s.attempts[id]);
  }

  lemma StepWrites(lib: Library, w: World, step: Step, id: string, d: int)
    requires EvidenceOk(lib, w)
    requires var t := Apply(lib, w, step).s;
      id in t.attempts && t.attempts[id].deployment == Some(d)
      && (id in w.s.attempts ==> w.s.attempts[id].deployment != Some(d))
    ensures step.Move? && step.who < |w.ops| && id in w.s.attempts
    ensures Carries(w.ops[step.who], w.s.attempts[id].mandate, id, d)
  {
    hide Perform, Awaits, Resume, OpHolds, Carries;
    assert OpHolds(lib, w.s, w.ops[step.who]);
    WriterCarries(lib, w.s, w.ops[step.who], step.choice, id, d);
  }

  // Only an operation that carries an id consumes.
  lemma ConsumerCarries(lib: Library, s: Stores, op: Op, c: Choice, m: string) returns (id: string, d: int)
    requires var t := Perform(s, Awaits(lib, op), c).0;
      m in t.mandates && t.mandates[m].state == Consumed && !(m in s.mandates && s.mandates[m].state == Consumed)
    ensures Carries(op, m, id, d)
  {
    hide Perform;
    StateComesBySwap(s, Awaits(lib, op), c, m);
    match op
    case DispatchOp(job, pc) => id, d := AttemptId(m), pc.d;
    case ResolveOp(job, pc) => id, d := pc.a.id, pc.found;
    case _ =>
  }

  lemma StateComesBySwap(s: Stores, a: Await, c: Choice, m: string)
    requires var t := Perform(s, a, c).0;
      m in t.mandates && t.mandates[m].state == Consumed && !(m in s.mandates && s.mandates[m].state == Consumed)
    ensures a.SwapMandate? && a.id == m && a.state == Consumed
  {
  }

  lemma StepConsumes(lib: Library, w: World, step: Step, m: string) returns (id: string, d: int)
    requires var t := Apply(lib, w, step).s;
      m in t.mandates && t.mandates[m].state == Consumed && !(m in w.s.mandates && w.s.mandates[m].state == Consumed)
    ensures step.Move? && step.who < |w.ops| && Carries(w.ops[step.who], m, id, d)
  {
    hide Perform, Awaits, Resume, Carries;
    id, d := ConsumerCarries(lib, w.s, w.ops[step.who], step.choice, m);
  }

  /** In every run, with any versions: a mandate is consumed only on a deployment id given by the provider. */
  lemma {:induction false} ConsumedWasTold(lib: Library, steps: seq<Step>, m: string)
    returns (k: nat, id: string, d: int)
    requires m in Reach(lib, steps).s.mandates && Reach(lib, steps).s.mandates[m].state == Consumed
    ensures Told(lib, steps, k, m, id, d)
  {
    hide Apply, Told, Carries;
    var n := |steps| - 1;
    var w := Reach(lib, steps[..n]);
    if m in w.s.mandates && w.s.mandates[m].state == Consumed {
      k, id, d := ConsumedWasTold(lib, steps[..n], m);
    } else {
      id, d := StepConsumes(lib, w, steps[n], m);
      k := CarriedWasTold(lib, steps[..n], steps[n].who, m, id, d);
    }
    ToldInPrefix(lib, steps, n, k, m, id, d);
  }

  // ----- What a reconciliation consumes

  /** Step k is operation i's move from a state of the resolution with the given counter. */
  ghost predicate ResolveMoves(lib: Library, steps: seq<Step>, k: nat, i: nat, job: ResolveJob, pc: ResolvePc) {
    && k < |steps| && steps[k].Move? && steps[k].who == i
    && i < |Reach(lib, steps[..k]).ops| && Reach(lib, steps[..k]).ops[i] == ResolveOp(job, pc)
  }

  /** A resolution that is about to swap carries what its own question was answered, in every run. */
  lemma {:induction false} SwapFollowsAnswer(lib: Library, steps: seq<Step>, i: nat, job: ResolveJob, seen: Mandate,
                                             a: Attempt, found: int) returns (k: nat)
    requires i < |Reach(lib, steps).ops| && Reach(lib, steps).ops[i] == ResolveOp(job, SwapResolved(seen, a, found))
    requires job.reason.None?
    ensures ResolveMoves(lib, steps, k, i, job, AskProvider(seen, a)) && steps[k].choice.answer == Some(found)
  {
    hide Reach, Perform, DispatchAwaits, DispatchResume;
    k := LastMove(lib, steps, i);
    var w, c := Reach(lib, steps[..k]), steps[k].choice;
    AnswerIsChoice(w.s, Awaits(lib, w.ops[i]), c);
  }

  /** The mandate it consumed, its attempt, and the deployment id it was told. */
  ghost predicate Reconciling(found: int, pc: ResolvePc, v: View) {
    && v.mandate == Some(Mandate(4, Consumed)) && v.attempt.Some?
    && match pc
       case RecordDeployment(_, d, _) => d == found && v.attempt.value.deployment == None
       case MarkReconciled(_, _) => v.attempt.value.deployment == Some(found)
       case AuditAccepted(_, _) => v.attempt.value.deployment == Some(found)
       case Closed(Resolved(_, _)) => v.attempt.value.deployment == Some(found)
       case _ => false
  }

  lemma ReconcilingNext(v: View, job: ResolveJob, pc: ResolvePc, v': View, reply: Reply, found: int)
    requires job.reason.None? && ResolveFits(v, job, pc) && Reconciling(found, pc, v)
    requires ViewPerforms(v, job.mandate, ResolveAwaits(job, pc), v', reply)
    ensures Reconciling(found, ResolveResume(job, pc, reply), v')
  {
  }

  lemma ReconcilingStarts(v: View, job: ResolveJob, seen: Mandate, a: Attempt, found: int, v': View, reply: Reply)
    requires job.reason.None? && ShapeOk(v) && ResolveFits(v, job, SwapResolved(seen, a, found))
    requires v.mandate != v'.mandate && PoliteResolve(job, SwapResolved(seen, a, found))
    requires ViewPerforms(v, job.mandate, ResolveAwaits(job, SwapResolved(seen, a, found)), v', reply)
    ensures Reconciling(found, ResolveResume(job, SwapResolved(seen, a, found), reply), v')
    ensures v.mandate == Some(Mandate(3, Quarantined))
  {
  }

  lemma ReconcilingBeside(found: int, v: View, v': View, job: ResolveJob, pc: ResolvePc)
    requires Reconciling(found, pc, v) && ResolveFits(v', job, pc) && NextLife(v.mandate, v'.mandate)
    requires v.attempt.Some? ==> v'.attempt.Some?
    requires v.attempt.Some? && v.attempt.value.deployment.Some? ==>
      v'.attempt.value.deployment == v.attempt.value.deployment
    ensures Reconciling(found, pc, v')
  {
  }

  lemma StepReconciles(lib: Library, w: World, step: Step, i: nat, job: ResolveJob, found: int)
    requires Joint(w) && PoliteWorld(w) && i < |w.ops| && w.ops[i].ResolveOp? && w.ops[i].resolve == job
    requires job.reason.None? && Reconciling(found, w.ops[i].rpc, ViewOf(w.s, job.mandate))
    ensures var v := Apply(lib, w, step);
      && i < |v.ops| && v.ops[i].ResolveOp? && v.ops[i].resolve == job
      && Reconciling(found, v.ops[i].rpc, ViewOf(v.s, job.mandate))
  {
    hide Perform, ResolveAwaits, ResolveResume, ViewPerforms, DispatchFits, ResolveFits, Reconciling, NextLife, Shapes,
         Attended, OneEach;
    var pc := w.ops[i].rpc;
    var v := Apply(lib, w, step);
    assert OpFits(w.s, w.ops[i]);
    if step.Move? && step.who == i {
      var a := ResolveAwaits(job, pc);
      var (t, reply) := Perform(w.s, a, step.choice);
      JointIsKeyed(w);
      PerformOnView(w.s, a, step.choice, job.mandate);
      ReconcilingNext(ViewOf(w.s, job.mandate), job, pc, ViewOf(t, job.mandate), reply, found);
    } else {
      StepKeepsJoint(lib, w, step);
      StepNextLife(lib, w, step, job.mandate);
      assert v.ops[i] == w.ops[i] && OpFits(v.s, v.ops[i]);
      IdBeside(lib, w, step, AttemptId(job.mandate));
      if AttemptId(job.mandate) in w.s.attempts {
        AttemptStays(lib, w, step, AttemptId(job.mandate));
      }
      ReconcilingBeside(found, ViewOf(w.s, job.mandate), ViewOf(v.s, job.mandate), job, pc);
    }
  }

  lemma AttemptStays(lib: Library, w: World, step: Step, id: string)
    requires id in w.s.attempts
    ensures id in Apply(lib, w, step).s.attempts
  {
    hide Apply;
    StepGrows(lib, w, step);
  }

  // The one move that takes a mandate to consumed at version 4.
  lemma SwapMove(lib: Library, w: World, step: Step, m: string)
    returns (i: nat, job: ResolveJob, seen: Mandate, a: Attempt, found: int)
    requires Joint(w) && PoliteWorld(w)
    requires Lookup(Apply(lib, w, step).s.mandates, m) == Some(Mandate(4, Consumed))
    requires Lookup(w.s.mandates, m) != Some(Mandate(4, Consumed))
    ensures step.Move? && step.who == i < |w.ops|
    ensures w.ops[i] == ResolveOp(job, SwapResolved(seen, a, found)) && job.reason.None? && job.mandate == m
    ensures Lookup(w.s.mandates, m) == Some(Mandate(3, Quarantined))
    ensures var v := Apply(lib, w, step);
      i < |v.ops| && v.ops[i].ResolveOp? && v.ops[i].resolve == job && Reconciling(found, v.ops[i].rpc, ViewOf(v.s, m))
  {
    hide Perform, DispatchFits, ResolveFits, Reconciling, Attended, OneEach, ViewPerforms, ShapeOk, DispatchResume,
         ResolveResume;
    i := step.who;
    var op := w.ops[i];
    assert OpFits(w.s, op) && Polite(op) && ShapeOk(ViewOf(w.s, m));
    RecordComesBySwap(w.s, Awaits(lib, op), step.choice, m);
    assert op.ResolveOp?;
    job, seen, a, found := op.resolve, op.rpc.seen, op.rpc.a, op.rpc.found;
    var (t, reply) := Perform(w.s, Awaits(lib, op), step.choice);
    PerformOnView(w.s, Awaits(lib, op), step.choice, m);
    ReconcilingStarts(ViewOf(w.s, m), job, seen, a, found, ViewOf(t, m), reply);
  }

  lemma RecordComesBySwap(s: Stores, a: Await, c: Choice, m: string)
    requires Lookup(Perform(s, a, c).0.mandates, m) == Some(Mandate(4, Consumed)) != Lookup(s.mandates, m)
    ensures a.SwapMandate? && a.id == m && a.expected == 3 && a.state == Consumed
  {
  }

  /**
   Without lookahead a mandate consumed at version 4 was swapped by one reconciliation whose own question the
   provider answered with a deployment id, and that id is or is about to be the one in the journal.
   */
  lemma {:induction false} ReconciledOnAnswer(lib: Library, steps: seq<Step>, m: string)
    returns (asked: nat, swapped: nat, i: nat, job: ResolveJob, seen: Mandate, a: Attempt, found: int)
    requires PoliteRun(lib, steps) && MandateAt(lib, steps, m) == Some(Mandate(4, Consumed))
    ensures job.mandate == m && job.reason.None? && asked < swapped
    ensures ResolveMoves(lib, steps, asked, i, job, AskProvider(seen, a)) && steps[asked].choice.answer == Some(found)
    ensures ResolveMoves(lib, steps, swapped, i, job, SwapResolved(seen, a, found))
    ensures MandateAt(lib, steps[..swapped], m) == Some(Mandate(3, Quarantined))
    ensures i < |Reach(lib, steps).ops|
    ensures var op := Reach(lib, steps).ops[i];
      op.ResolveOp? && op.resolve == job && Reconciling(found, op.rpc, ViewOf(Reach(lib, steps).s, m))
  {
    hide Apply, Joint, PoliteWorld, Reconciling;
    var n := |steps| - 1;
    PoliteRunPrefix(lib, steps, n);
    JointAlways(lib, steps[..n]);
    var w := Reach(lib, steps[..n]);
    if MandateAt(lib, steps[..n], m) == Some(Mandate(4, Consumed)) {
      asked, swapped, i, job, seen, a, found := ReconciledOnAnswer(lib, steps[..n], m);
      assert steps[..n][..asked] == steps[..asked] && steps[..n][..swapped] == steps[..swapped];
      StepReconciles(lib, w, steps[n], i, job, found);
    } else {
      swapped := n;
      i, job, seen, a, found := SwapMove(lib, w, steps[n], m);
      asked := SwapFollowsAnswer(lib, steps[..n], i, job, seen, a, found);
      assert steps[..n][..asked] == steps[..asked];
    }
  }

  // ----- What a resolution's first read decides

  /** How a resolution ends that found this record; None: it goes on. */
  function EndsAtOnce(job: ResolveJob, found: Option<Mandate>): Option<ResolveResult> {
    match found
    case None => Some(MandateNotFound)
    case Some(m) =>
      if m.state == Quarantined then None
      else if job.reason.None? && m.state in {Consumed, Abandoned, Expired, RevokedLabel, Released}
      then Some(AlreadyTerminal(m.state))
      else Some(NotQuarantined(Some(m.state)))
  }

  lemma ReadDecides(s: Stores, job: ResolveJob, c: Choice)
    ensures var (t, reply) := Perform(s, ResolveAwaits(job, ReadMandate), c);
      var next, end := ResolveResume(job, ReadMandate, reply), EndsAtOnce(job, Lookup(s.mandates, job.mandate));
      if end.Some? then next == Closed(end.value) else next.FindAttempt?
  {
  }

  lemma {:induction false} ClosedForGood(lib: Library, steps: seq<Step>, k: nat, i: nat, job: ResolveJob,
                                         result: ResolveResult)
    requires k <= |steps| && i < |Reach(lib, steps[..k]).ops|
    requires Reach(lib, steps[..k]).ops[i] == ResolveOp(job, Closed(result))
    ensures i < |Reach(lib, steps).ops| && Reach(lib, steps).ops[i] == ResolveOp(job, Closed(result))
  {
    hide Apply;
    if k == |steps| {
      assert steps[..k] == steps;
    } else {
      var n := |steps| - 1;
      assert steps[..n][..k] == steps[..k];
      ClosedForGood(lib, steps[..n], k, i, job, result);
      RunGrows(lib, steps, n);
      StepOp(lib, Reach(lib, steps[..n]), steps[n], i);
      ClosedRests(lib, Reach(lib, steps[..n]).s, job, result, if steps[n].Move? then steps[n].choice else ANY);
    }
  }

  lemma ClosedRests(lib: Library, s: Stores, job: ResolveJob, result: ResolveResult, c: Choice)
    ensures var op := ResolveOp(job, Closed(result)); Resume(lib, op, Perform(s, Awaits(lib, op), c).1) == op
  {
  }

  /**
   In every run: a resolution whose read found the mandate missing, terminal, or in any other state but quarantined ends
   there, and the answer names the state it found. Only a reconciliation tells terminal states apart.
   */
  lemma {:induction false} ReadEndsIt(lib: Library, steps: seq<Step>, k: nat, i: nat, job: ResolveJob)
    requires ResolveMoves(lib, steps, k, i, job, ReadMandate)
    requires EndsAtOnce(job, MandateAt(lib, steps[..k], job.mandate)).Some?
    ensures i < |Reach(lib, steps).ops|
    ensures Reach(lib, steps).ops[i]
      == ResolveOp(job, Closed(EndsAtOnce(job, MandateAt(lib, steps[..k], job.mandate)).value))
  {
    hide Perform, EndsAtOnce, ResolveAwaits, ResolveResume;
    var w := Reach(lib, steps[..k]);
    assert steps[..k + 1] == steps[..k] + [steps[k]];
    ReachSnoc(lib, steps[..k], steps[k]);
    ReadDecides(w.s, job, steps[k].choice);
    ClosedForGood(lib, steps, k + 1, i, job, EndsAtOnce(job, MandateAt(lib, steps[..k], job.mandate)).value);
  }

  /** Without lookahead a reconciliation that ends in `AlreadyTerminal` tells the mandate's state for good. */
  lemma {:induction false} TerminalAnswerIsFinal(lib: Library, steps: seq<Step>, k: nat, i: nat, job: ResolveJob)
    requires PoliteRun(lib, steps) && ResolveMoves(lib, steps, k, i, job, ReadMandate) && job.reason.None?
    requires IsFinal(MandateAt(lib, steps[..k], job.mandate))
    ensures i < |Reach(lib, steps).ops| && job.mandate in Reach(lib, steps).s.mandates
    ensures Reach(lib, steps).ops[i]
      == ResolveOp(job, Closed(AlreadyTerminal(Reach(lib, steps).s.mandates[job.mandate].state)))
  {
    hide Reach;
    ReadEndsIt(lib, steps, k, i, job);
    FinalForever(lib, steps, k, job.mandate);
  }
}
