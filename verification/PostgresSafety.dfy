/**
 Safety of whole runs over the Postgres mandate store, without any hypothesis on what its SELECTs find. A misled
 caller has lost its swap, and what it goes on to do harms no invariant.
 */
module PostgresSafety {
  import opened Records
  import opened Stores
  import opened DispatchProgram
  import opened ResolveProgram
  import opened Machine
  import opened Growth
  import opened AnyVersion
  import opened Lifecycle
  import opened NoLookahead
  import opened MandateLife
  import opened Evidence
  import opened Postgres
  import opened PostgresRuns

  // ----- One provider call

  lemma MisledKeepsCallsOk(lib: Library, u: World, i: nat)
    requires CallsOk(u) && i < |u.ops| && Awaits(lib, u.ops[i]).SwapMandate?
    ensures CallsOk(Misled(lib, u, i))
  {
    hide CallsOk, InWindow;
    var v := Misled(lib, u, i);
    var reply := Swapped(Conflict(Awaits(lib, u.ops[i]).expected));
    GrowsReflexive(u.s);
    if u.ops[i].DispatchOp? {
      WindowEdges(lib, u.ops[i].dispatch, u.ops[i].dpc, reply);
    }
    WindowKept(u, v, i);
  }

  lemma {:induction false} PgCallsAlwaysOk(lib: Library, steps: seq<Step>)
    ensures CallsOk(Plain(PgReach(lib, steps)))
  {
    hide PgApply, Apply, Awaits, Resume, CallsOk, FailedUpdate, OnlySwapsRead, Plain;
    if steps == [] {
      PgStartsOk(lib);
    } else {
      var before, last := steps[..|steps| - 1], steps[|steps| - 1];
      var w := PgReach(lib, before);
      PgCallsAlwaysOk(lib, before);
      SwapsAlwaysRead(lib, before);
      StepSeen(lib, w, last);
      if OddRead(lib, w, last) {
        OddOpIsPlain(lib, w, last);
        MisledKeepsCallsOk(lib, Plain(w), last.who);
      } else {
        StepKeepsCallsOk(lib, Plain(w), last);
      }
    }
  }

  lemma PgStartsOk(lib: Library)
    ensures CallsOk(Plain(PgReach(lib, [])))
  {
  }

  lemma OddOpIsPlain(lib: Library, w: PgWorld, step: Step)
    requires OddRead(lib, w, step)
    ensures step.Move? && step.who < |Plain(w).ops| && Plain(w).ops[step.who] == w.ops[step.who].op
    ensures w.ops[step.who].Reading? && Awaits(lib, Plain(w).ops[step.who]).SwapMandate?
  {
  }

  /** In every run over Postgres, with any versions, any crashes and any reads: one provider call for a mandate. */
  lemma {:induction false} PgAtMostOneProviderCall(lib: Library, steps: seq<Step>, i: nat, j: nat)
    requires i < |PgReach(lib, steps).s.provider| && j < |PgReach(lib, steps).s.provider|
    requires PgReach(lib, steps).s.provider[i].mandate == PgReach(lib, steps).s.provider[j].mandate
    ensures i == j
  {
    hide PgReach;
    PgCallsAlwaysOk(lib, steps);
  }

  // ----- The joint invariant

  /** At every moment of the run every operation in flight is polite. */
  ghost predicate PgPoliteRun(lib: Library, steps: seq<Step>) {
    forall k :: 0 <= k <= |steps| ==> PoliteWorld(Plain(PgReach(lib, steps[..k])))
  }

  lemma PgPolitePrefix(lib: Library, steps: seq<Step>, k: nat)
    requires PgPoliteRun(lib, steps) && k <= |steps|
    ensures PgPoliteRun(lib, steps[..k]) && PoliteWorld(Plain(PgReach(lib, steps[..k])))
  {
    forall j | 0 <= j <= k ensures PoliteWorld(Plain(PgReach(lib, steps[..k][..j]))) {
      assert steps[..k][..j] == steps[..j];
    }
  }

  /** A holder's completing swap never fails, so no holder waits for an explanation. */
  ghost predicate ReadersHoldNothing(w: PgWorld) {
    forall i :: 0 <= i < |w.ops| && w.ops[i].Reading? && w.ops[i].op.DispatchOp? ==> !Holding(w.ops[i].op.dpc)
  }

  lemma HolderSucceeds(lib: Library, s: Stores, op: Op)
    requires OpFits(s, op) && Polite(op) && op.DispatchOp? && Holding(op.dpc) && Awaits(lib, op).SwapMandate?
    ensures var a := Awaits(lib, op); Update(s.mandates, a.id, a.expected, a.state).1.Some?
  {
  }

  lemma StepKeepsReaders(lib: Library, w: PgWorld, step: Step)
    requires OnlySwapsRead(lib, w) && ReadersHoldNothing(w) && Joint(Plain(w)) && PoliteWorld(Plain(w))
    ensures ReadersHoldNothing(PgApply(lib, w, step))
  {
    hide Shapes, OneEach, Attended, Perform, Awaits, Resume, OpFits, Holding;
    if step.Move? && step.who < |w.ops| {
      var op := w.ops[step.who].op;
      assert OpFits(w.s, Plain(w).ops[step.who]) && Polite(Plain(w).ops[step.who]);
      if op.DispatchOp? && Holding(op.dpc) && Awaits(lib, op).SwapMandate? {
        HolderSucceeds(lib, w.s, op);
      }
    }
  }

  lemma MisledMoves(lib: Library, s: Stores, op: Op)
    requires Shapes(s) && OpFits(s, op) && Awaits(lib, op).SwapMandate? && (op.DispatchOp? ==> !Holding(op.dpc))
    ensures Moved(s, op, s, Resume(lib, op, Swapped(Conflict(Awaits(lib, op).expected))))
  {
    hide ViewOf, ShapeOk, DispatchFits, ResolveFits, DispatchEffect, ResolveEffect, DispatchAwaits, DispatchResume,
         ResolveAwaits, ResolveResume, Perform;
    match op
    case DispatchOp(job, pc) =>
      assert ShapeOk(ViewOf(s, job.mandate));
      MisledDispatch(lib, ViewOf(s, job.mandate), job, pc);
    case ResolveOp(job, pc) =>
      assert ShapeOk(ViewOf(s, job.mandate));
      MisledResolution(ViewOf(s, job.mandate), job, pc);
    case _ =>
  }

  lemma MisledDispatch(lib: Library, v: View, job: DispatchJob, pc: DispatchPc)
    requires ShapeOk(v) && DispatchFits(v, pc) && DispatchAwaits(lib, job, pc).SwapMandate? && !Holding(pc)
    ensures var next := DispatchResume(pc, Swapped(Conflict(DispatchAwaits(lib, job, pc).expected)));
      DispatchEffect(v, pc, v, next)
  {
  }

  lemma MisledResolution(v: View, job: ResolveJob, pc: ResolvePc)
    requires ShapeOk(v) && ResolveFits(v, job, pc) && ResolveAwaits(job, pc).SwapMandate?
    ensures var next := ResolveResume(job, pc, Swapped(Conflict(ResolveAwaits(job, pc).expected)));
      ResolveEffect(v, job, pc, v, next)
  {
  }

  lemma MisledKeepsJoint(lib: Library, u: World, i: nat)
    requires Joint(u) && i < |u.ops| && Awaits(lib, u.ops[i]).SwapMandate?
    requires u.ops[i].DispatchOp? ==> !Holding(u.ops[i].dpc)
    ensures Joint(Misled(lib, u, i))
  {
    hide Awaits, Resume, Moved, ShapeOk, OneEach, Attended, OpFits;
    assert OpFits(u.s, u.ops[i]);
    MisledMoves(lib, u.s, u.ops[i]);
    MoveKept(u, i, Misled(lib, u, i));
  }

  /** In every run over Postgres without version lookahead the joint invariant holds, whatever the SELECTs find. */
  lemma {:induction false} PgJointAlways(lib: Library, steps: seq<Step>)
    requires PgPoliteRun(lib, steps)
    ensures Joint(Plain(PgReach(lib, steps))) && ReadersHoldNothing(PgReach(lib, steps))
  {
    hide PgApply, Apply, Awaits, Resume, Joint, PoliteWorld, FailedUpdate, OnlySwapsRead;
    if steps == [] {
      PgStartsJoint(lib);
    } else {
      var n := |steps| - 1;
      PgPolitePrefix(lib, steps, n);
      PgJointAlways(lib, steps[..n]);
      SwapsAlwaysRead(lib, steps[..n]);
      var w := PgReach(lib, steps[..n]);
      StepSeen(lib, w, steps[n]);
      StepKeepsReaders(lib, w, steps[n]);
      if OddRead(lib, w, steps[n]) {
        OddOpIsPlain(lib, w, steps[n]);
        MisledKeepsJoint(lib, Plain(w), steps[n].who);
      } else {
        StepKeepsJoint(lib, Plain(w), steps[n]);
      }
    }
  }

  lemma PgStartsJoint(lib: Library)
    ensures Joint(Plain(PgReach(lib, []))) && ReadersHoldNothing(PgReach(lib, []))
  {
    JointAlways(lib, []);
    assert Plain(PgReach(lib, [])) == Reach(lib, []);
  }

  // ----- What follows for mandates

  function PgMandateAt(lib: Library, steps: seq<Step>, m: string): Option<Mandate> {
    Lookup(PgReach(lib, steps).s.mandates, m)
  }

  /** Every statement takes each mandate along the one path, or leaves it. */
  lemma {:induction false} PgMandatePath(lib: Library, steps: seq<Step>, k: nat, m: string)
    requires PgPoliteRun(lib, steps) && k < |steps|
    ensures NextLife(PgMandateAt(lib, steps[..k], m), PgMandateAt(lib, steps[..k + 1], m))
  {
    hide Apply, Joint, PoliteWorld, PgApply, FailedUpdate, OnlySwapsRead;
    PgPolitePrefix(lib, steps, k);
    PgJointAlways(lib, steps[..k]);
    SwapsAlwaysRead(lib, steps[..k]);
    assert steps[..k + 1][..k] == steps[..k];
    StepSeen(lib, PgReach(lib, steps[..k]), steps[k]);
    StepNextLife(lib, Plain(PgReach(lib, steps[..k])), steps[k], m);
  }

  /** Consumed and abandoned are absorbing, and a final mandate has one of its three final records. */
  lemma {:induction false} PgFinalForever(lib: Library, steps: seq<Step>, k: nat, m: string)
    requires PgPoliteRun(lib, steps) && k <= |steps| && IsFinal(PgMandateAt(lib, steps[..k], m))
    ensures PgMandateAt(lib, steps, m) == PgMandateAt(lib, steps[..k], m)
    ensures PgMandateAt(lib, steps, m)
      in {Some(Mandate(3, Consumed)), Some(Mandate(4, Consumed)), Some(Mandate(4, Abandoned))}
  {
    hide PgReach;
    if k == |steps| {
      assert steps[..k] == steps;
      PgJointAlways(lib, steps);
      FinalInWorld(Plain(PgReach(lib, steps)), m);
    } else {
      var n := |steps| - 1;
      PgPolitePrefix(lib, steps, n);
      assert steps[..n][..k] == steps[..k] && steps[..n + 1] == steps;
      PgFinalForever(lib, steps[..n], k, m);
      PgMandatePath(lib, steps, n, m);
    }
  }

  /** A reserved mandate is held by exactly one dispatch in flight (perhaps crashed), and that one is not misled. */
  lemma {:induction false} PgReservedHasOneHolder(lib: Library, steps: seq<Step>, m: string) returns (i: nat)
    requires PgPoliteRun(lib, steps) && PgMandateAt(lib, steps, m) == Some(Mandate(2, Reserved))
    ensures var ops := PgReach(lib, steps).ops;
      && i < |ops| && HoldingOp(ops[i].op, m) && ops[i].Awaiting?
      && forall j :: 0 <= j < |ops| && HoldingOp(ops[j].op, m) ==> j == i
  {
    hide PgReach;
    PgJointAlways(lib, steps);
    i := HolderInWorld(Plain(PgReach(lib, steps)), m);
    var ops := PgReach(lib, steps).ops;
    forall j | 0 <= j < |ops| && HoldingOp(ops[j].op, m) ensures j == i {
      assert HoldingOp(Plain(PgReach(lib, steps)).ops[j], m);
    }
  }

  // ----- And for receipts

  lemma MisledKeepsEvidence(lib: Library, u: World, i: nat)
    requires EvidenceOk(lib, u) && i < |u.ops| && Awaits(lib, u.ops[i]).SwapMandate?
    ensures EvidenceOk(lib, Misled(lib, u, i))
  {
    hide ReceiptHolds, Keyed, NodesNamed, DeliverHolds;
    var v := Misled(lib, u, i);
    forall j | 0 <= j < |v.ops| ensures OpHolds(lib, v.s, v.ops[j]) {
      assert OpHolds(lib, u.s, u.ops[j]);
    }
  }

  /** Every receipt is of one of the two kinds, whatever the versions and the reads. */
  lemma {:induction false} PgEvidenceAlways(lib: Library, steps: seq<Step>)
    ensures EvidenceOk(lib, Plain(PgReach(lib, steps)))
  {
    hide PgApply, Apply, Awaits, Resume, EvidenceOk, FailedUpdate, OnlySwapsRead, Plain;
    if steps == [] {
      PgStartsWithEvidence(lib);
    } else {
      var before, last := steps[..|steps| - 1], steps[|steps| - 1];
      var w := PgReach(lib, before);
      PgEvidenceAlways(lib, before);
      SwapsAlwaysRead(lib, before);
      StepSeen(lib, w, last);
      if OddRead(lib, w, last) {
        OddOpIsPlain(lib, w, last);
        MisledKeepsEvidence(lib, Plain(w), last.who);
      } else {
        StepKeepsEvidence(lib, Plain(w), last);
      }
    }
  }

  lemma PgStartsWithEvidence(lib: Library)
    ensures EvidenceOk(lib, Plain(PgReach(lib, [])))
  {
  }

  /** Without lookahead a mandate has at most one receipt, of either kind. */
  lemma {:induction false} PgAtMostOneReceipt(lib: Library, steps: seq<Step>, k: string, l: string)
    requires PgPoliteRun(lib, steps)
    requires var receipts := PgReach(lib, steps).s.receipts;
      k in receipts && l in receipts && receipts[k].mandate == receipts[l].mandate
    ensures k == l
  {
    hide PgReach;
    PgEvidenceAlways(lib, steps);
    PgJointAlways(lib, steps);
    OneReceiptInWorld(lib, Plain(PgReach(lib, steps)), k, l);
  }
}
