/**
 The mandate's life in every run without version lookahead: a dispatch expects version 1, and every
 other compare-and-swap expects a version no newer than the one stored when its operation read.
 */
module NoLookahead {
  import opened Records
  import opened Stores
  import opened DeliverProgram
  import opened Machine
  import opened Lifecycle

  predicate Polite(op: Op) {
    match op
    case DispatchOp(job, _) => job.expected == 1
    case ResolveOp(job, pc) => PoliteResolve(job, pc)
    case DecideOp(job, pc) => pc.SwapStatus? ==> job.expected <= pc.seen
    case _ => true
  }

  predicate PoliteWorld(w: World) {
    forall i :: 0 <= i < |w.ops| ==> Polite(w.ops[i])
  }

  /** At every moment of the run every operation in flight is polite. */
  ghost predicate PoliteRun(lib: Library, steps: seq<Step>) {
    forall k :: 0 <= k <= |steps| ==> PoliteWorld(Reach(lib, steps[..k]))
  }

  // ----- The joint invariant

  predicate WonOp(op: Op, m: string) { op.DispatchOp? && op.dispatch.mandate == m && Won(op.dpc) }
  predicate HoldingOp(op: Op, m: string) { op.DispatchOp? && op.dispatch.mandate == m && Holding(op.dpc) }
  predicate SettledOp(op: Op, m: string) { op.ResolveOp? && op.resolve.mandate == m && Lifecycle.Settled(op.rpc) }
  predicate ClosingOp(op: Op, m: string) { op.ResolveOp? && op.resolve.mandate == m && Closing(op.rpc) }

  /** The attempt a webhook request carries once it looked one up. */
  function CarriedAttempt(pc: DeliverPc): Option<Attempt> {
    match pc
    case InsertGap(a) => Some(a)
    case InsertObservation(a, _) => Some(a)
    case InsertClaim(a, _) => Some(a)
    case InsertReceipt(a, _) => Some(a)
    case AuditReceipt(a) => Some(a)
    case _ => None
  }

  ghost predicate OpFits(s: Stores, op: Op) {
    match op
    case DispatchOp(job, pc) => DispatchFits(ViewOf(s, job.mandate), pc)
    case ResolveOp(job, pc) => ResolveFits(ViewOf(s, job.mandate), job, pc)
    case DeliverOp(_, pc) => CarriedAttempt(pc).Some? ==>
      CarriedAttempt(pc).value.id == AttemptId(CarriedAttempt(pc).value.mandate)
    case _ => true
  }

  ghost predicate Shapes(s: Stores) {
    Keyed(s.attempts) && forall m :: ShapeOk(ViewOf(s, m))
  }

  ghost predicate Footing(w: World) {
    forall i :: 0 <= i < |w.ops| ==> OpFits(w.s, w.ops[i])
  }

  /** One operation at most ever won m's reservation, and one at most ever resolved m. */
  ghost predicate OneEach(ops: seq<Op>) {
    && (forall i, j, m :: 0 <= i < j < |ops| && WonOp(ops[i], m) ==> !WonOp(ops[j], m))
    && (forall i, j, m :: 0 <= i < j < |ops| && SettledOp(ops[i], m) ==> !SettledOp(ops[j], m))
  }

  /** A reserved mandate, and a swapped one whose attempt is not written yet, has its operation in flight. */
  ghost predicate Attended(w: World) {
    && (forall m :: Version(ViewOf(w.s, m)) == 2 ==> exists i :: 0 <= i < |w.ops| && HoldingOp(w.ops[i], m))
    && (forall m :: Unfinished(ViewOf(w.s, m)) ==> exists i :: 0 <= i < |w.ops| && ClosingOp(w.ops[i], m))
  }

  ghost predicate Joint(w: World) {
    Shapes(w.s) && Footing(w) && OneEach(w.ops) && Attended(w)
  }

  // ----- One move

  /** The mandate an operation acts on; webhooks and decisions act on none. */
  function Subject(op: Op): Option<string> {
    match op
    case DispatchOp(job, _) => Some(job.mandate)
    case ResolveOp(job, _) => Some(job.mandate)
    case _ => None
  }

  predicate Touches(a: Await, m: string) {
    match a
    case SwapMandate(id, _, _) => id == m
    case PutAttempt(x) => x.id == AttemptId(m)
    case SetAttemptState(id, _) => id == AttemptId(m)
    case SetAttemptDeployment(id, _) => id == AttemptId(m)
    case PutReceipt(r) => r.id == AbandonedReceiptId(AttemptId(m))
    case CreateDeployment(call) => call.mandate == m
    case _ => false
  }

  lemma PerformElsewhere(s: Stores, a: Await, c: Choice, m: string)
    requires !Touches(a, m)
    ensures ViewOf(Perform(s, a, c).0, m) == ViewOf(s, m)
  {
    if a.CreateDeployment? {
      CalledAfterAppend(s.provider, a.call, m);
    }
  }

  // An operation's calls touch no mandate but its own.
  lemma AwaitsTouchSubject(lib: Library, s: Stores, op: Op, m: string)
    requires OpFits(s, op) && Touches(Awaits(lib, op), m)
    ensures Subject(op) == Some(m)
  {
    match op
    case DispatchOp(job, _) => AttemptIdInjective(job.mandate, m);
    case ResolveOp(job, _) =>
      AttemptIdInjective(job.mandate, m);
      ReceiptIdInjective(AttemptId(job.mandate), AttemptId(m));
    case DeliverOp(_, pc) =>
      if CarriedAttempt(pc).Some? {
        ReceiptIdsApart(CarriedAttempt(pc).value.mandate, AttemptId(m));
      }
    case _ =>
  }

  lemma KeyedKept(s: Stores, op: Op, lib: Library, c: Choice)
    requires Keyed(s.attempts)
    ensures Keyed(Perform(s, Awaits(lib, op), c).0.attempts)
  {
    var a := Awaits(lib, op);
    assert a.PutAttempt? ==> a.attempt.id == AttemptId(a.attempt.mandate);
    PerformKeepsKeys(s, a, c);
  }

  lemma PerformKeepsKeys(s: Stores, a: Await, c: Choice)
    requires Keyed(s.attempts) && (a.PutAttempt? ==> a.attempt.id == AttemptId(a.attempt.mandate))
    ensures Keyed(Perform(s, a, c).0.attempts)
  {
    hide IsAmbiguousOf, HasAmbiguous, HoldsDeployment, DeploymentKnown, Cas, CasStatus, Track, AttemptId;
  }

  /** What one move did, in terms of views. */
  ghost predicate Moved(s: Stores, op: Op, t: Stores, next: Op) {
    && (forall m :: Subject(op) != Some(m) ==> ViewOf(t, m) == ViewOf(s, m))
    && match op
       case DispatchOp(job, pc) =>
         next.DispatchOp? && next.dispatch == job
         && DispatchEffect(ViewOf(s, job.mandate), pc, ViewOf(t, job.mandate), next.dpc)
       case ResolveOp(job, pc) =>
         next.ResolveOp? && next.resolve == job
         && ResolveEffect(ViewOf(s, job.mandate), job, pc, ViewOf(t, job.mandate), next.rpc)
       case _ => Subject(next) == None && OpFits(t, next)
  }

  lemma ExecMoves(lib: Library, s: Stores, op: Op, c: Choice)
    requires Shapes(s) && OpFits(s, op) && Polite(op)
    ensures var (t, next) := Exec(lib, s, op, c); Moved(s, op, t, next)
  {
    var a := Awaits(lib, op);
    var (t, reply) := Perform(s, a, c);
    forall m | Subject(op) != Some(m) ensures ViewOf(t, m) == ViewOf(s, m) {
      if Touches(a, m) {
        AwaitsTouchSubject(lib, s, op, m);
      }
      PerformElsewhere(s, a, c, m);
    }
    match op
    case DispatchOp(job, pc) =>
      PerformOnView(s, a, c, job.mandate);
      DispatchStep(lib, ViewOf(s, job.mandate), job, pc, ViewOf(t, job.mandate), reply);
    case ResolveOp(job, pc) =>
      PerformOnView(s, a, c, job.mandate);
      ResolveStep(ViewOf(s, job.mandate), job, pc, ViewOf(t, job.mandate), reply);
    case DeliverOp(job, pc) => DeliverCarries(lib, s, job, pc, c);
    case _ =>
  }

  lemma DeliverCarries(lib: Library, s: Stores, job: DeliverJob, pc: DeliverPc, c: Choice)
    requires Keyed(s.attempts)
    requires CarriedAttempt(pc).Some? ==> CarriedAttempt(pc).value.id == AttemptId(CarriedAttempt(pc).value.mandate)
    ensures var (t, reply) := Perform(s, DeliverAwaits(lib, job, pc), c);
      var next := CarriedAttempt(DeliverResume(lib, job, pc, reply));
      next.Some? ==> next.value.id == AttemptId(next.value.mandate)
  {
  }

  // ----- The invariant is kept

  /** Operation i moved from op to next and took the stores from s to t. */
  ghost predicate MoveOf(w: World, i: nat, v: World) {
    && i < |w.ops| && |v.ops| == |w.ops| && v.ops == w.ops[i := v.ops[i]]
    && Keyed(v.s.attempts) && Moved(w.s, w.ops[i], v.s, v.ops[i])
  }

  lemma ShapesKept(w: World, i: nat, v: World)
    requires Joint(w) && MoveOf(w, i, v)
    ensures Shapes(v.s)
  {
    forall m ensures ShapeOk(ViewOf(v.s, m)) {
      assert ShapeOk(ViewOf(w.s, m));
    }
  }

  lemma ChangeOfMove(w: World, i: nat, v: World, m: string)
    requires Joint(w) && MoveOf(w, i, v)
    ensures Changes(ViewOf(w.s, m), ViewOf(v.s, m), HoldingOp(w.ops[i], m), ClosingOp(w.ops[i], m))
  {
    if Subject(w.ops[i]) == Some(m) {
      assert ShapeOk(ViewOf(w.s, m));
    }
  }

  lemma FootingKept(w: World, i: nat, v: World, j: nat)
    requires Joint(w) && MoveOf(w, i, v) && Shapes(v.s) && j < |w.ops|
    ensures OpFits(v.s, v.ops[j])
  {
    if j != i {
      var op := w.ops[j];
      assert v.ops[j] == op && OpFits(w.s, op);
      match op
      case DispatchOp(job, pc) =>
        ChangeOfMove(w, i, v, job.mandate);
        assert HoldingOp(w.ops[i], job.mandate) ==> WonOp(w.ops[i], job.mandate);
        assert WonOp(op, job.mandate) <==> Won(pc);
        BystandingDispatch(ViewOf(w.s, job.mandate), ViewOf(v.s, job.mandate),
                           HoldingOp(w.ops[i], job.mandate), ClosingOp(w.ops[i], job.mandate), pc);
      case ResolveOp(job, pc) =>
        ChangeOfMove(w, i, v, job.mandate);
        assert ClosingOp(w.ops[i], job.mandate) ==> SettledOp(w.ops[i], job.mandate);
        assert SettledOp(op, job.mandate) <==> Lifecycle.Settled(pc);
        assert ShapeOk(ViewOf(w.s, job.mandate)) && ShapeOk(ViewOf(v.s, job.mandate));
        BystandingResolve(ViewOf(w.s, job.mandate), ViewOf(v.s, job.mandate),
                          HoldingOp(w.ops[i], job.mandate), ClosingOp(w.ops[i], job.mandate), job, pc);
      case _ =>
    }
  }

  // A new winner or resolver finds no other one: the version it swapped away says so.
  lemma NewcomerIsAlone(w: World, i: nat, v: World, j: nat, m: string)
    requires Joint(w) && MoveOf(w, i, v) && j < |w.ops| && j != i
    ensures WonOp(v.ops[i], m) ==> !WonOp(w.ops[j], m)
    ensures SettledOp(v.ops[i], m) ==> !SettledOp(w.ops[j], m)
  {
    hide Attended, Shapes, ShapeOk, ViewOf, Polite;
    assert OpFits(w.s, w.ops[j]);
    if WonOp(v.ops[i], m) {
      NewWinnerIsAlone(w, i, v, j, m);
    }
    if SettledOp(v.ops[i], m) {
      NewSettlerIsAlone(w, i, v, j, m);
    }
  }

  lemma NewWinnerIsAlone(w: World, i: nat, v: World, j: nat, m: string)
    requires OneEach(w.ops) && MoveOf(w, i, v) && j < |w.ops| && j != i && OpFits(w.s, w.ops[j]) && WonOp(v.ops[i], m)
    ensures !WonOp(w.ops[j], m)
  {
    hide ShapeOk, ViewOf, Keyed, SettledOp, ResolveEffect, ResolveFits, Holding;
  }

  lemma NewSettlerIsAlone(w: World, i: nat, v: World, j: nat, m: string)
    requires OneEach(w.ops) && MoveOf(w, i, v) && j < |w.ops| && j != i && OpFits(w.s, w.ops[j])
      && SettledOp(v.ops[i], m)
    ensures !SettledOp(w.ops[j], m)
  {
    hide ShapeOk, ViewOf, Keyed, WonOp, DispatchEffect, DispatchFits, Closing;
  }

  lemma OneEachKept(w: World, i: nat, v: World)
    requires Joint(w) && MoveOf(w, i, v)
    ensures OneEach(v.ops)
  {
    hide WonOp, SettledOp;
    forall a, b, m | 0 <= a < b < |v.ops|
      ensures WonOp(v.ops[a], m) ==> !WonOp(v.ops[b], m)
      ensures SettledOp(v.ops[a], m) ==> !SettledOp(v.ops[b], m)
    {
      if a == i {
        NewcomerIsAlone(w, i, v, b, m);
      } else if b == i {
        NewcomerIsAlone(w, i, v, a, m);
      }
    }
  }

  lemma AttendedKept(w: World, i: nat, v: World)
    requires Joint(w) && MoveOf(w, i, v)
    ensures Attended(v)
  {
    forall m | Version(ViewOf(v.s, m)) == 2 ensures exists j :: 0 <= j < |v.ops| && HoldingOp(v.ops[j], m) {
      HolderFound(w, i, v, m);
    }
    forall m | Unfinished(ViewOf(v.s, m)) ensures exists j :: 0 <= j < |v.ops| && ClosingOp(v.ops[j], m) {
      CloserFound(w, i, v, m);
    }
  }

  lemma HolderFound(w: World, i: nat, v: World, m: string)
    requires Joint(w) && MoveOf(w, i, v) && Version(ViewOf(v.s, m)) == 2
    ensures exists j :: 0 <= j < |v.ops| && HoldingOp(v.ops[j], m)
  {
    if HoldingOp(v.ops[i], m) {
    } else {
      assert Version(ViewOf(w.s, m)) == 2;
      var j :| 0 <= j < |w.ops| && HoldingOp(w.ops[j], m);
      assert j != i;
      assert HoldingOp(v.ops[j], m);
    }
  }

  lemma CloserFound(w: World, i: nat, v: World, m: string)
    requires Joint(w) && MoveOf(w, i, v) && Unfinished(ViewOf(v.s, m))
    ensures exists j :: 0 <= j < |v.ops| && ClosingOp(v.ops[j], m)
  {
    if ClosingOp(v.ops[i], m) {
    } else {
      assert Unfinished(ViewOf(w.s, m));
      var j :| 0 <= j < |w.ops| && ClosingOp(w.ops[j], m);
      assert j != i;
      assert ClosingOp(v.ops[j], m);
    }
  }

  lemma MoveKeepsJoint(lib: Library, w: World, i: nat, c: Choice)
    requires Joint(w) && i < |w.ops| && Polite(w.ops[i])
    ensures Joint(Apply(lib, w, Move(i, c)))
  {
    var (t, next) := Exec(lib, w.s, w.ops[i], c);
    assert OpFits(w.s, w.ops[i]);
    ExecMoves(lib, w.s, w.ops[i], c);
    KeyedKept(w.s, w.ops[i], lib, c);
    MoveKept(w, i, World(t, w.ops[i := next]));
  }

  lemma MoveKept(w: World, i: nat, v: World)
    requires Joint(w) && MoveOf(w, i, v)
    ensures Joint(v)
  {
    ShapesKept(w, i, v);
    forall j | 0 <= j < |v.ops| ensures OpFits(v.s, v.ops[j]) {
      FootingKept(w, i, v, j);
    }
    OneEachKept(w, i, v);
    AttendedKept(w, i, v);
  }

  lemma IssueKeepsJoint(w: World, m: string, v: World)
    requires Joint(w) && m !in w.s.mandates
    requires v == w.(s := w.s.(mandates := w.s.mandates[m := Mandate(1, Issued)]))
    ensures Joint(v)
  {
    forall k ensures ShapeOk(ViewOf(v.s, k)) && Changes(ViewOf(w.s, k), ViewOf(v.s, k), false, false)
      ensures k != m ==> ViewOf(v.s, k) == ViewOf(w.s, k)
    {
      assert ShapeOk(ViewOf(w.s, k));
    }
    forall j | 0 <= j < |w.ops| ensures OpFits(v.s, v.ops[j]) {
      var op := w.ops[j];
      assert OpFits(w.s, op);
      match op
      case DispatchOp(job, pc) =>
        BystandingDispatch(ViewOf(w.s, job.mandate), ViewOf(v.s, job.mandate), false, false, pc);
      case ResolveOp(job, pc) =>
        assert ShapeOk(ViewOf(w.s, job.mandate));
        BystandingResolve(ViewOf(w.s, job.mandate), ViewOf(v.s, job.mandate), false, false, job, pc);
      case _ =>
    }
    assert forall k :: ViewOf(v.s, k) != ViewOf(w.s, k) ==> Version(ViewOf(v.s, k)) == 1;
  }

  lemma StartKeepsJoint(w: World, op: Op)
    requires Joint(w) && AtStart(op)
    ensures Joint(w.(ops := w.ops + [op]))
  {
    var v := w.(ops := w.ops + [op]);
    assert forall j :: 0 <= j < |w.ops| ==> v.ops[j] == w.ops[j];
    assert v.ops[|w.ops|] == op;
    assert forall m :: !WonOp(op, m) && !SettledOp(op, m);
    forall m | Version(ViewOf(v.s, m)) == 2 ensures exists j :: 0 <= j < |v.ops| && HoldingOp(v.ops[j], m) {
      var j :| 0 <= j < |w.ops| && HoldingOp(w.ops[j], m);
      assert HoldingOp(v.ops[j], m);
    }
    forall m | Unfinished(ViewOf(v.s, m)) ensures exists j :: 0 <= j < |v.ops| && ClosingOp(v.ops[j], m) {
      var j :| 0 <= j < |w.ops| && ClosingOp(w.ops[j], m);
      assert ClosingOp(v.ops[j], m);
    }
  }

  lemma StepKeepsJoint(lib: Library, w: World, step: Step)
    requires Joint(w) && PoliteWorld(w)
    ensures Joint(Apply(lib, w, step))
  {
    match step
    case Issue(m) =>
      if m != "" && m !in w.s.mandates {
        IssueKeepsJoint(w, m, Apply(lib, w, step));
      }
    case Start(op) =>
      if AtStart(op) {
        StartKeepsJoint(w, op);
      }
    case Move(i, c) =>
      if i < |w.ops| {
        MoveKeepsJoint(lib, w, i, c);
      }
  }

  lemma PoliteRunPrefix(lib: Library, steps: seq<Step>, k: nat)
    requires PoliteRun(lib, steps) && k <= |steps|
    ensures PoliteRun(lib, steps[..k])
    ensures PoliteWorld(Reach(lib, steps[..k]))
  {
    forall j | 0 <= j <= k ensures PoliteWorld(Reach(lib, steps[..k][..j])) {
      assert steps[..k][..j] == steps[..j];
    }
  }

  /** The joint invariant holds at every moment of every run without lookahead, crashes included. */
  lemma {:induction false} JointAlways(lib: Library, steps: seq<Step>)
    requires PoliteRun(lib, steps)
    ensures Joint(Reach(lib, steps))
  {
    if steps != [] {
      var n := |steps| - 1;
      PoliteRunPrefix(lib, steps, n);
      JointAlways(lib, steps[..n]);
      StepKeepsJoint(lib, Reach(lib, steps[..n]), steps[n]);
    } else {
      NewbornIsJoint();
    }
  }

  lemma NewbornIsJoint()
    ensures Joint(NEWBORN)
  {
    assert forall m :: ViewOf(EMPTY, m) == View(None, None, false, false);
  }
}
