/**
 The application's operations, interleaved over the shared stores.

 Each operation carries a program counter. `Awaits` is the call it is suspended on, and `Resume` is
 the code between that `.await` and the next. An operation that crashes, or whose awaited call fails
 in the backend, never moves again. A run is any list of steps: it may start any number of operations
 with any arguments and interleave their moves in any order.
 */
module Machine {
  import opened Text
  import opened Records
  import opened Stores
  import opened DispatchProgram
  import opened ResolveProgram
  import opened DeliverProgram
  import opened DecideProgram

  datatype Op =
    | DispatchOp(dispatch: DispatchJob, dpc: DispatchPc)
    | ResolveOp(resolve: ResolveJob, rpc: ResolvePc)
    | DeliverOp(deliver: DeliverJob, wpc: DeliverPc)
    | DecideOp(decide: DecideJob, apc: DecidePc)
    | ProposeOp(propose: ProposeJob, ppc: ProposePc)

  function Awaits(lib: Library, op: Op): Await {
    match op
    case DispatchOp(job, pc) => DispatchAwaits(lib, job, pc)
    case ResolveOp(job, pc) => ResolveAwaits(job, pc)
    case DeliverOp(job, pc) => DeliverAwaits(lib, job, pc)
    case DecideOp(job, pc) => DecideAwaits(job, pc)
    case ProposeOp(job, pc) => ProposeAwaits(job, pc)
  }

  function Resume(lib: Library, op: Op, reply: Reply): Op {
    match op
    case DispatchOp(job, pc) => DispatchOp(job, DispatchResume(pc, reply))
    case ResolveOp(job, pc) => ResolveOp(job, ResolveResume(job, pc, reply))
    case DeliverOp(job, pc) => DeliverOp(job, DeliverResume(lib, job, pc, reply))
    case DecideOp(job, pc) => DecideOp(job, DecideResume(job, pc, reply))
    case ProposeOp(job, pc) => ProposeOp(job, ProposeResume(pc, reply))
  }

  /** One move of one operation. */
  function Exec(lib: Library, s: Stores, op: Op, c: Choice): (Stores, Op) {
    var (t, reply) := Perform(s, Awaits(lib, op), c);
    (t, Resume(lib, op, reply))
  }

  /** A call that passed the checks made before its first await. */
  predicate AtStart(op: Op) {
    match op
    case DispatchOp(_, pc) => pc == CheckRequest
    case ResolveOp(job, pc) => pc == ReadMandate && Admitted(job)
    case DeliverOp(job, pc) => pc == LookUpDelivery && !IsBlank(job.delivery)
    case DecideOp(_, pc) => pc == ReadRequest
    case ProposeOp(_, pc) => pc == InsertRequest
  }

  datatype World = World(s: Stores, ops: seq<Op>)

  /** A mandate is inserted as issued; an operation is started; an operation in flight makes one move. */
  datatype Step = Issue(mandate: string) | Start(op: Op) | Move(who: nat, choice: Choice)

  const NEWBORN := World(EMPTY, [])

  function Apply(lib: Library, w: World, step: Step): World {
    match step
    case Issue(m) =>
      var (ms, _) := InsertOnce(w.s.mandates, m, Mandate(1, Issued));
      w.(s := w.s.(mandates := ms))
    case Start(op) => if AtStart(op) then w.(ops := w.ops + [op]) else w
    case Move(i, c) =>
      if i >= |w.ops| then w
      else var (t, op) := Exec(lib, w.s, w.ops[i], c); World(t, w.ops[i := op])
  }

  function Reach(lib: Library, steps: seq<Step>): World {
    if steps == [] then NEWBORN else Apply(lib, Reach(lib, steps[..|steps| - 1]), steps[|steps| - 1])
  }

  /** One operation moved alone, once for each choice. */
  function Drive(lib: Library, s: Stores, op: Op, cs: seq<Choice>): (Stores, Op) {
    if cs == [] then (s, op)
    else var (t, next) := Drive(lib, s, op, cs[..|cs| - 1]); Exec(lib, t, next, cs[|cs| - 1])
  }

  function Moves(i: nat, cs: seq<Choice>): seq<Step> {
    seq(|cs|, k requires 0 <= k < |cs| => Move(i, cs[k]))
  }

  lemma ReachSnoc(lib: Library, steps: seq<Step>, step: Step)
    ensures Reach(lib, steps + [step]) == Apply(lib, Reach(lib, steps), step)
  {
    hide Apply;
    assert (steps + [step])[..|steps|] == steps;
  }

  // What one step does to operation i.
  lemma StepOp(lib: Library, w: World, step: Step, i: nat)
    requires i < |Apply(lib, w, step).ops|
    ensures var v := Apply(lib, w, step);
      if i >= |w.ops| then AtStart(v.ops[i]) && v.s == w.s
      else if step.Move? && step.who == i then
        v.ops[i] == Resume(lib, w.ops[i], Perform(w.s, Awaits(lib, w.ops[i]), step.choice).1)
        && v.s == Perform(w.s, Awaits(lib, w.ops[i]), step.choice).0
      else v.ops[i] == w.ops[i]
  {
    hide Perform, Awaits, Resume;
  }

  lemma ApplyMove(lib: Library, w: World, i: nat, s: Stores, op: Op, c: Choice)
    requires i < |w.ops|
    ensures var (t, next) := Exec(lib, s, op, c);
      Apply(lib, World(s, w.ops[i := op]), Move(i, c)) == World(t, w.ops[i := next])
  {
    hide Exec;
    var next := Exec(lib, s, op, c).1;
    assert w.ops[i := op][i := next] == w.ops[i := next];
  }

  // An operation left alone is a run like any other.
  lemma {:induction false} DriveIsRun(lib: Library, steps: seq<Step>, i: nat, cs: seq<Choice>)
    requires i < |Reach(lib, steps).ops|
    ensures var w := Reach(lib, steps); var (t, op) := Drive(lib, w.s, w.ops[i], cs);
      Reach(lib, steps + Moves(i, cs)) == World(t, w.ops[i := op])
  {
    hide Exec, Apply;
    var w := Reach(lib, steps);
    if cs == [] {
      assert steps + Moves(i, cs) == steps;
      assert w.ops[i := w.ops[i]] == w.ops;
    } else {
      var n := |cs| - 1;
      DriveIsRun(lib, steps, i, cs[..n]);
      var (t, op) := Drive(lib, w.s, w.ops[i], cs[..n]);
      ApplyMove(lib, w, i, t, op, cs[n]);
      ReachSnoc(lib, steps + Moves(i, cs[..n]), Move(i, cs[n]));
      assert steps + Moves(i, cs) == steps + Moves(i, cs[..n]) + [Move(i, cs[n])];
    }
  }

  lemma DriveSnoc(lib: Library, s: Stores, op: Op, cs: seq<Choice>, c: Choice)
    ensures Drive(lib, s, op, cs + [c]) == (var (t, next) := Drive(lib, s, op, cs); Exec(lib, t, next, c))
  {
    hide Exec;
    assert (cs + [c])[..|cs|] == cs;
  }

  lemma {:induction false} DriveConcat(lib: Library, s: Stores, op: Op, a: seq<Choice>, b: seq<Choice>)
    ensures Drive(lib, s, op, a + b) == (var (t, next) := Drive(lib, s, op, a); Drive(lib, t, next, b))
  {
    hide Exec;
    if b == [] {
      assert a + b == a;
    } else {
      var n := |b| - 1;
      DriveConcat(lib, s, op, a, b[..n]);
      assert (a + b)[..|a + b| - 1] == a + b[..n];
    }
  }
}
