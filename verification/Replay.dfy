/**
 Using a mandate twice. The documentation of the dispatch use case makes two promises the code does not keep:
 that the mandate is quarantined the moment the provider call completes, and that a second dispatch gets
 `AlreadyConsumed`. Here is what every run without lookahead does instead.
 */
module Replay {
  import opened Records
  import opened Stores
  import opened DispatchProgram
  import opened Machine
  import opened Growth
  import opened AnyVersion
  import opened Lifecycle
  import opened NoLookahead
  import opened MandateLife
  import opened AuditTrail

  predicate Used(m: Option<Mandate>) {
    m.Some? && m.value.state in {Consumed, Quarantined, Abandoned}
  }

  /** Counters of a dispatch that comes too late. */
  predicate TooLate(pc: DispatchPc) {
    || pc.CheckRequest? || pc.Reserve? || pc.InspectConflict? || pc.RecordReplay?
    || (pc.Finished? && (pc.result.RequestNotFound? || pc.result.NotApproved? || pc.result.ReplayRejected?))
  }

  lemma {:induction false} UsedForever(lib: Library, steps: seq<Step>, k: nat, m: string)
    requires PoliteRun(lib, steps) && k <= |steps| && Used(MandateAt(lib, steps[..k], m))
    ensures Used(MandateAt(lib, steps, m))
  {
    hide Reach;
    if k == |steps| {
      assert steps[..k] == steps;
    } else {
      var n := |steps| - 1;
      PoliteRunPrefix(lib, steps, n);
      assert steps[..n][..k] == steps[..k] && steps[..n + 1] == steps;
      UsedForever(lib, steps[..n], k, m);
      MandatePath(lib, steps, n, m);
    }
  }

  // One move of a late dispatch, on its mandate's view.
  lemma TooLateNext(lib: Library, v: View, job: DispatchJob, pc: DispatchPc, v': View, reply: Reply)
    requires job.expected == 1 && ShapeOk(v) && Used(v.mandate) && TooLate(pc)
    requires ViewPerforms(v, job.mandate, DispatchAwaits(lib, job, pc), v', reply)
    ensures TooLate(DispatchResume(pc, reply))
  {
  }

  lemma StepStaysTooLate(lib: Library, w: World, step: Step, i: nat)
    requires Joint(w) && PoliteWorld(w) && i < |w.ops| && w.ops[i].DispatchOp? && TooLate(w.ops[i].dpc)
    requires Used(Lookup(w.s.mandates, w.ops[i].dispatch.mandate))
    ensures var v := Apply(lib, w, step);
      i < |v.ops| && v.ops[i].DispatchOp? && v.ops[i].dispatch == w.ops[i].dispatch && TooLate(v.ops[i].dpc)
  {
    hide Perform, DispatchAwaits, DispatchResume, ViewPerforms, ShapeOk, TooLate, Used;
    if step.Move? && step.who == i {
      var job, pc := w.ops[i].dispatch, w.ops[i].dpc;
      var a := DispatchAwaits(lib, job, pc);
      var (t, reply) := Perform(w.s, a, step.choice);
      PerformOnView(w.s, a, step.choice, job.mandate);
      assert ShapeOk(ViewOf(w.s, job.mandate)) && Polite(w.ops[i]);
      TooLateNext(lib, ViewOf(w.s, job.mandate), job, pc, ViewOf(t, job.mandate), reply);
    }
  }

  lemma {:induction false} StaysTooLate(lib: Library, steps: seq<Step>, k: nat, i: nat, job: DispatchJob)
    requires PoliteRun(lib, steps) && k <= |steps| && i < |Reach(lib, steps[..k]).ops|
    requires Reach(lib, steps[..k]).ops[i].DispatchOp? && Reach(lib, steps[..k]).ops[i].dispatch == job
    requires TooLate(Reach(lib, steps[..k]).ops[i].dpc) && Used(MandateAt(lib, steps[..k], job.mandate))
    ensures i < |Reach(lib, steps).ops|
    ensures var op := Reach(lib, steps).ops[i]; op.DispatchOp? && op.dispatch == job && TooLate(op.dpc)
  {
    hide Apply, TooLate, Used;
    if k == |steps| {
      assert steps[..k] == steps;
    } else {
      var n := |steps| - 1;
      PoliteRunPrefix(lib, steps, n);
      assert steps[..n][..k] == steps[..k];
      StaysTooLate(lib, steps[..n], k, i, job);
      UsedForever(lib, steps[..n], k, job.mandate);
      JointAlways(lib, steps[..n]);
      StepStaysTooLate(lib, Reach(lib, steps[..n]), steps[n], i);
    }
  }

  // ----- Which refusal, and what is on record

  /** The dispatch found its request approved. */
  predicate PastCheck(pc: DispatchPc) {
    !pc.CheckRequest? && !(pc.Finished? && (pc.result.RequestNotFound? || pc.result.NotApproved?))
  }

  lemma CheckDecides(lib: Library, s: Stores, job: DispatchJob, pc: DispatchPc, c: Choice)
    ensures var next := DispatchResume(pc, Perform(s, DispatchAwaits(lib, job, pc), c).1);
      PastCheck(next) <==>
        PastCheck(pc) || (pc.CheckRequest? && job.request in s.requests && s.requests[job.request].status == Approved)
  {
  }

  lemma ApprovalInPrefix(lib: Library, steps: seq<Step>, j: nat, i: nat, job: DispatchJob)
    requires j < |steps| - 1
    ensures SawApproval(lib, steps[..|steps| - 1], j, i, job) <==> SawApproval(lib, steps, j, i, job)
  {
    hide Reach;
    assert steps[..|steps| - 1][..j] == steps[..j];
  }

  // What the last step contributes to the approvals operation i saw.
  lemma LastApproval(lib: Library, steps: seq<Step>, i: nat, job: DispatchJob)
    requires steps != [] && i < |Reach(lib, steps).ops|
    requires var op := Reach(lib, steps).ops[i]; op.DispatchOp? && op.dispatch == job
    ensures var n := |steps| - 1;
      var w := Reach(lib, steps[..n]);
      if i < |w.ops|
      then w.ops[i].DispatchOp? && w.ops[i].dispatch == job
           && (PastCheck(Reach(lib, steps).ops[i].dpc) <==>
                 PastCheck(w.ops[i].dpc) || SawApproval(lib, steps, n, i, job))
      else !PastCheck(Reach(lib, steps).ops[i].dpc) && !SawApproval(lib, steps, n, i, job)
  {
    hide Perform, DispatchAwaits, DispatchResume, Apply;
    var n := |steps| - 1;
    var w, step := Reach(lib, steps[..n]), steps[n];
    StepOp(lib, w, step, i);
    if i < |w.ops| && step.Move? && step.who == i {
      CheckDecides(lib, w.s, w.ops[i].dispatch, w.ops[i].dpc, step.choice);
    }
  }

  /** A dispatch is past its check exactly when some move of its own saw the request approved. */
  lemma {:induction false} PastCheckSawApproval(lib: Library, steps: seq<Step>, i: nat, job: DispatchJob)
    requires i < |Reach(lib, steps).ops|
    requires var op := Reach(lib, steps).ops[i]; op.DispatchOp? && op.dispatch == job
    ensures PastCheck(Reach(lib, steps).ops[i].dpc) <==> exists j: nat :: SawApproval(lib, steps, j, i, job)
  {
    hide Apply, SawApproval, PastCheck;
    if steps != [] {
      var n := |steps| - 1;
      LastApproval(lib, steps, i, job);
      if i < |Reach(lib, steps[..n]).ops| {
        PastCheckSawApproval(lib, steps[..n], i, job);
      } else {
        NotThereYet(lib, steps, i, job);
      }
      forall j: nat
        ensures j < n ==> (SawApproval(lib, steps[..n], j, i, job) <==> SawApproval(lib, steps, j, i, job))
      {
        if j < n {
          ApprovalInPrefix(lib, steps, j, i, job);
        }
      }
      InsideRun(lib, steps[..n], i, job);
      InsideRun(lib, steps, i, job);
    }
  }

  lemma InsideRun(lib: Library, steps: seq<Step>, i: nat, job: DispatchJob)
    ensures forall j: nat :: SawApproval(lib, steps, j, i, job) ==> j < |steps|
  {
  }

  lemma NotThereYet(lib: Library, steps: seq<Step>, i: nat, job: DispatchJob)
    requires steps != [] && i >= |Reach(lib, steps[..|steps| - 1]).ops|
    ensures forall j :: 0 <= j < |steps| - 1 ==> !SawApproval(lib, steps, j, i, job)
  {
    hide Apply;
    forall j | 0 <= j < |steps| - 1 ensures !SawApproval(lib, steps, j, i, job) {
      assert steps[..|steps| - 1][..j] == steps[..j];
      RunGrows(lib, steps[..|steps| - 1], j);
    }
  }

  /** A rejected replay is on record, in every run. */
  lemma {:induction false} ReplayIsRecorded(lib: Library, steps: seq<Step>, i: nat, job: DispatchJob, state: Label)
    requires i < |Reach(lib, steps).ops| && Reach(lib, steps).ops[i] == DispatchOp(job, Finished(ReplayRejected(state)))
    ensures Audit(Some(job.executor), "execute_approved_deployment", "denied", job.mandate) in Reach(lib, steps).s.audit
  {
    hide Reach;
    EveryActIsLogged(lib, steps, i, ReplayEvent(job));
  }

  /**
   A dispatch that has not reserved by the time its mandate is consumed, quarantined or abandoned never does. If it
   ends, it ends in `ReplayRejected` exactly when it found its request approved, and then the denial is on record.
   */
  lemma {:induction false} SecondDispatchIsRefused(lib: Library, steps: seq<Step>, k: nat, i: nat, job: DispatchJob)
    requires PoliteRun(lib, steps) && k <= |steps| && i < |Reach(lib, steps[..k]).ops|
    requires Reach(lib, steps[..k]).ops[i] in {DispatchOp(job, CheckRequest), DispatchOp(job, Reserve)}
    requires Used(MandateAt(lib, steps[..k], job.mandate))
    ensures i < |Reach(lib, steps).ops|
    ensures var op := Reach(lib, steps).ops[i];
      && op.DispatchOp? && op.dispatch == job && TooLate(op.dpc)
      && (op.dpc.Finished? ==>
            && (op.dpc.result.ReplayRejected? <==> exists j: nat :: SawApproval(lib, steps, j, i, job))
            && (op.dpc.result.ReplayRejected? ==> ReplayEvent(job) in Reach(lib, steps).s.audit))
  {
    hide Reach, SawApproval, Used;
    StaysTooLate(lib, steps, k, i, job);
    PastCheckSawApproval(lib, steps, i, job);
    var pc := Reach(lib, steps).ops[i].dpc;
    if pc.Finished? && pc.result.ReplayRejected? {
      ReplayIsRecorded(lib, steps, i, job, pc.result.state);
    }
  }

  // ----- What a dispatch that lost the reservation finds

  /** Without lookahead a lost reservation means that the mandate has left its first version. */
  lemma {:induction false} ConflictSeen(lib: Library, steps: seq<Step>, i: nat)
    requires PoliteRun(lib, steps) && i < |Reach(lib, steps).ops|
    requires Reach(lib, steps).ops[i].DispatchOp? && Reach(lib, steps).ops[i].dpc.InspectConflict?
    ensures 2 <= Version(ViewOf(Reach(lib, steps).s, Reach(lib, steps).ops[i].dispatch.mandate))
  {
    hide Perform, DispatchAwaits, DispatchResume, Grows, ViewPerforms, ShapeOk, Apply;
    var n := |steps| - 1;
    PoliteRunPrefix(lib, steps, n);
    JointAlways(lib, steps[..n]);
    var w, step := Reach(lib, steps[..n]), steps[n];
    var op := Reach(lib, steps).ops[i];
    var m := op.dispatch.mandate;
    StepGrows(lib, w, step);
    VersionGrows(w.s, Reach(lib, steps).s, m);
    StepOp(lib, w, step, i);
    if i < |w.ops| && w.ops[i].dpc.InspectConflict? {
      ConflictSeen(lib, steps[..n], i);
    } else {
      var a := DispatchAwaits(lib, w.ops[i].dispatch, w.ops[i].dpc);
      PerformOnView(w.s, a, step.choice, m);
      assert ShapeOk(ViewOf(w.s, m)) && Polite(w.ops[i]);
      var (t, reply) := Perform(w.s, a, step.choice);
      ConflictOnView(lib, ViewOf(w.s, m), op.dispatch, w.ops[i].dpc, ViewOf(t, m), reply);
    }
  }

  lemma VersionGrows(s: Stores, t: Stores, m: string)
    requires Grows(s, t)
    ensures Version(ViewOf(s, m)) <= Version(ViewOf(t, m)) || Version(ViewOf(s, m)) == 0 || m !in s.mandates
  {
  }

  lemma ConflictOnView(lib: Library, v: View, job: DispatchJob, pc: DispatchPc, v': View, reply: Reply)
    requires job.expected == 1 && ShapeOk(v) && !pc.InspectConflict? && DispatchResume(pc, reply).InspectConflict?
    requires ViewPerforms(v, job.mandate, DispatchAwaits(lib, job, pc), v', reply)
    ensures 2 <= Version(v) && v' == v
  {
  }

  /** It is told of a lost race while the mandate is reserved, and of a replay once the mandate is used. */
  lemma {:induction false} InspectionDecides(lib: Library, steps: seq<Step>, i: nat, c: Choice)
    requires PoliteRun(lib, steps) && i < |Reach(lib, steps).ops|
    requires Reach(lib, steps).ops[i].DispatchOp? && Reach(lib, steps).ops[i].dpc.InspectConflict?
    ensures var w := Reach(lib, steps);
      var job, m := w.ops[i].dispatch, Lookup(w.s.mandates, w.ops[i].dispatch.mandate);
      && (m == Some(Mandate(2, Reserved)) || Used(m))
      && Exec(lib, w.s, w.ops[i], c) == (w.s, DispatchOp(job,
           if Used(m) then RecordReplay(m.value.state) else Finished(ReservationFailed(w.ops[i].dpc.current))))
  {
    ConflictSeen(lib, steps, i);
    JointAlways(lib, steps);
    assert ShapeOk(ViewOf(Reach(lib, steps).s, Reach(lib, steps).ops[i].dispatch.mandate));
  }

  // ----- What becomes of the mandate after the provider call

  /**
   The mandate stays reserved until its dispatch swaps it, and the provider's answer alone decides to what. A
   deployment id it gave is the attempt's from before that swap on.
   */
  predicate Follows(answer: Option<int>, pc: DispatchPc, v: View) {
    && (if answer.Some? then AfterYes(pc, answer.value) else AfterNo(pc))
    && (if Holding(pc) then v.mandate == Some(Mandate(2, Reserved))
        else if answer.Some? then v.mandate == Some(Mandate(3, Consumed))
        else v.mandate in {Some(Mandate(3, Quarantined)), Some(Mandate(4, Consumed)), Some(Mandate(4, Abandoned))})
    && (pc.Consume? || pc.AuditConsume? || (pc.Finished? && answer.Some?) ==>
          v.attempt.Some? && v.attempt.value.deployment == answer)
  }

  lemma FollowsNext(lib: Library, v: View, job: DispatchJob, pc: DispatchPc, v': View, reply: Reply,
                    answer: Option<int>)
    requires job.expected == 1 && DispatchFits(v, pc) && Follows(answer, pc, v)
    requires ViewPerforms(v, job.mandate, DispatchAwaits(lib, job, pc), v', reply)
    ensures Follows(answer, DispatchResume(pc, reply), v')
  {
  }

  lemma FollowsBeside(answer: Option<int>, v: View, v': View, pc: DispatchPc)
    requires Follows(answer, pc, v) && DispatchFits(v', pc) && NextLife(v.mandate, v'.mandate)
    requires v.attempt.Some? && v.attempt.value.deployment.Some? ==>
      v'.attempt.Some? && v'.attempt.value.deployment == v.attempt.value.deployment
    ensures Follows(answer, pc, v')
  {
  }

  lemma StepFollows(lib: Library, w: World, step: Step, i: nat, answer: Option<int>)
    requires Joint(w) && PoliteWorld(w) && i < |w.ops| && w.ops[i].DispatchOp?
    requires Follows(answer, w.ops[i].dpc, ViewOf(w.s, w.ops[i].dispatch.mandate))
    ensures var v := Apply(lib, w, step);
      && i < |v.ops| && v.ops[i].DispatchOp? && v.ops[i].dispatch == w.ops[i].dispatch
      && Follows(answer, v.ops[i].dpc, ViewOf(v.s, w.ops[i].dispatch.mandate))
  {
    hide Perform, DispatchAwaits, DispatchResume, ViewPerforms, DispatchFits, ResolveFits, Follows, NextLife, Shapes,
         Attended, OneEach;
    var job, pc := w.ops[i].dispatch, w.ops[i].dpc;
    var v := Apply(lib, w, step);
    assert OpFits(w.s, w.ops[i]) && Polite(w.ops[i]);
    if step.Move? && step.who == i {
      var a := DispatchAwaits(lib, job, pc);
      var (t, reply) := Perform(w.s, a, step.choice);
      JointIsKeyed(w);
      PerformOnView(w.s, a, step.choice, job.mandate);
      FollowsNext(lib, ViewOf(w.s, job.mandate), job, pc, ViewOf(t, job.mandate), reply, answer);
    } else {
      StepKeepsJoint(lib, w, step);
      StepNextLife(lib, w, step, job.mandate);
      assert v.ops[i] == w.ops[i] && OpFits(v.s, v.ops[i]);
      IdBeside(lib, w, step, AttemptId(job.mandate));
      FollowsBeside(answer, ViewOf(w.s, job.mandate), ViewOf(v.s, job.mandate), pc);
    }
  }

  // The call's own move: at that moment the mandate is still reserved, whatever the answer.
  lemma CallMove(lib: Library, w: World, i: nat, c: Choice)
    requires Joint(w) && i < |w.ops| && w.ops[i].DispatchOp? && w.ops[i].dpc == CallProvider
    ensures var v := Apply(lib, w, Move(i, c));
      && i < |v.ops| && v.ops[i].DispatchOp? && v.ops[i].dispatch == w.ops[i].dispatch
      && Follows(c.answer, v.ops[i].dpc, ViewOf(v.s, w.ops[i].dispatch.mandate))
      && Lookup(v.s.mandates, w.ops[i].dispatch.mandate) == Some(Mandate(2, Reserved))
  {
    hide Shapes, Attended, OneEach;
    assert OpFits(w.s, w.ops[i]);
  }

  /**
   The mandate is reserved at the moment its provider call completes, never quarantined. From then on it goes with
   its dispatch: to consumed if the provider gave a deployment id, to quarantined otherwise.
   */
  lemma {:induction false} OutcomeFollowsAnswer(lib: Library, steps: seq<Step>, j: nat, i: nat, job: DispatchJob)
    requires PoliteRun(lib, steps) && MovesFrom(lib, steps, j, i, job, CallProvider)
    ensures MandateAt(lib, steps[..j + 1], job.mandate) == Some(Mandate(2, Reserved))
    ensures i < |Reach(lib, steps).ops|
    ensures var op := Reach(lib, steps).ops[i];
      op.DispatchOp? && op.dispatch == job
      && Follows(steps[j].choice.answer, op.dpc, ViewOf(Reach(lib, steps).s, job.mandate))
  {
    hide Apply, Follows, Joint, PoliteWorld, AtStart;
    var n := |steps| - 1;
    PoliteRunPrefix(lib, steps, n);
    JointAlways(lib, steps[..n]);
    assert steps[..n + 1] == steps;
    if j == n {
      CallMove(lib, Reach(lib, steps[..n]), i, steps[n].choice);
    } else {
      assert steps[..n][..j] == steps[..j] && steps[..n][..j + 1] == steps[..j + 1];
      OutcomeFollowsAnswer(lib, steps[..n], j, i, job);
      StepFollows(lib, Reach(lib, steps[..n]), steps[n], i, steps[j].choice.answer);
    }
  }

  /**
   A used mandate had its one provider call, and was consumed at once exactly when the provider accepted it; then
   its attempt holds the id the provider gave.
   */
  lemma {:induction false} StateTellsAnswer(lib: Library, steps: seq<Step>, m: string)
    returns (j: nat, i: nat, job: DispatchJob)
    requires PoliteRun(lib, steps) && Used(MandateAt(lib, steps, m))
    ensures job.mandate == m && MovesFrom(lib, steps, j, i, job, CallProvider)
    ensures MandateAt(lib, steps, m) == Some(Mandate(3, Consumed)) <==> steps[j].choice.answer.Some?
    ensures steps[j].choice.answer.Some? ==>
      AttemptId(m) in Reach(lib, steps).s.attempts
      && Reach(lib, steps).s.attempts[AttemptId(m)].deployment == steps[j].choice.answer
  {
    hide Apply;
    StateTellsOutcome(lib, steps, m);
    var n := CallOf(Reach(lib, steps).s.provider, m);
    j, i, job := CallHasMove(lib, steps, n);
    CallNames(lib, job);
    OutcomeFollowsAnswer(lib, steps, j, i, job);
  }

  lemma CallOf(calls: seq<ProviderCall>, m: string) returns (n: nat)
    requires Called(calls, m)
    ensures n < |calls| && calls[n].mandate == m
  {
    var c :| c in calls && c.mandate == m;
    n :| 0 <= n < |calls| && calls[n] == c;
  }

  lemma CallNames(lib: Library, job: DispatchJob)
    ensures DispatchAwaits(lib, job, CallProvider).call.mandate == job.mandate
  {
  }
}
