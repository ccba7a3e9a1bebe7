/**
 Whole runs over the Postgres mandate store: a swap is its UPDATE and, if that changes no row, a SELECT at some later
 moment whose row explains the failure. Such runs are runs of the machine, unless a SELECT finds the expected version.
 */
module PostgresRuns {
  import opened Records
  import opened Stores
  import opened Machine
  import opened Growth
  import opened Postgres

  /** `Reading`: the UPDATE of the awaited swap changed no row, and the SELECT is still to come. */
  datatype PgOp = Awaiting(op: Op) | Reading(op: Op)

  datatype PgWorld = PgWorld(s: Stores, ops: seq<PgOp>)

  function PgMove(lib: Library, s: Stores, o: PgOp, c: Choice): (Stores, PgOp) {
    match (o, Awaits(lib, o.op))
    case (Awaiting(op), SwapMandate(id, expected, state)) =>
      var (table, updated) := Update(s.mandates, id, expected, state);
      if updated.None? then (s, Reading(op))
      else (s.(mandates := table), Awaiting(Resume(lib, op, Swapped(PgOutcome(updated, None)))))
    case (Awaiting(op), a) => var (t, reply) := Perform(s, a, c); (t, Awaiting(Resume(lib, op, reply)))
    case (Reading(op), SwapMandate(id, _, _)) =>
      (s, Awaiting(Resume(lib, op, Swapped(PgOutcome(None, Lookup(s.mandates, id))))))
    case (Reading(_), _) => (s, o)
  }

  function PgApply(lib: Library, w: PgWorld, step: Step): PgWorld {
    match step
    case Issue(m) => w.(s := w.s.(mandates := InsertOnce(w.s.mandates, m, Mandate(1, Issued)).0))
    case Start(op) => if AtStart(op) then w.(ops := w.ops + [Awaiting(op)]) else w
    case Move(i, c) =>
      if i >= |w.ops| then w
      else var (t, o) := PgMove(lib, w.s, w.ops[i], c); PgWorld(t, w.ops[i := o])
  }

  function PgReach(lib: Library, steps: seq<Step>): PgWorld {
    if steps == [] then PgWorld(EMPTY, [])
    else PgApply(lib, PgReach(lib, steps[..|steps| - 1]), steps[|steps| - 1])
  }

  /** The world as the machine sees it: a swap that failed and is not explained yet has not happened. */
  function Plain(w: PgWorld): World {
    World(w.s, seq(|w.ops|, i requires 0 <= i < |w.ops| => w.ops[i].op))
  }

  /** The step is an UPDATE that changes no row. */
  predicate FailedUpdate(lib: Library, w: PgWorld, step: Step) {
    && step.Move? && step.who < |w.ops| && w.ops[step.who].Awaiting?
    && var a := Awaits(lib, w.ops[step.who].op);
       a.SwapMandate? && Update(w.s.mandates, a.id, a.expected, a.state).1.None?
  }

  /** The step is a SELECT that finds the version its swap expected. */
  predicate OddRead(lib: Library, w: PgWorld, step: Step) {
    && step.Move? && step.who < |w.ops| && w.ops[step.who].Reading?
    && var a := Awaits(lib, w.ops[step.who].op);
       a.SwapMandate? && a.id in w.s.mandates && w.s.mandates[a.id].version == a.expected
  }

  ghost predicate OnlySwapsRead(lib: Library, w: PgWorld) {
    forall i :: 0 <= i < |w.ops| && w.ops[i].Reading? ==> Awaits(lib, w.ops[i].op).SwapMandate?
  }

  // One statement is no move of the machine, or exactly one.
  lemma MoveRefines(lib: Library, s: Stores, o: PgOp, c: Choice)
    requires o.Reading? ==> Awaits(lib, o.op).SwapMandate?
    requires var a := Awaits(lib, o.op);
      o.Reading? ==> !(a.id in s.mandates && s.mandates[a.id].version == a.expected)
    ensures var a := Awaits(lib, o.op);
      var (t, next) := PgMove(lib, s, o, c);
      if o.Awaiting? && a.SwapMandate? && Update(s.mandates, a.id, a.expected, a.state).1.None?
      then t == s && next == Reading(o.op)
      else next.Awaiting? && Exec(lib, s, o.op, c) == (t, next.op)
  {
    hide Awaits, Resume;
    var a := Awaits(lib, o.op);
    if a.SwapMandate? {
      SwapOnTable(s, a, c);
    }
  }

  lemma SwapOnTable(s: Stores, a: Await, c: Choice)
    requires a.SwapMandate?
    ensures var (table, updated) := Update(s.mandates, a.id, a.expected, a.state);
      if updated.Some? then Perform(s, a, c) == (s.(mandates := table), Swapped(PgOutcome(updated, None)))
      else Perform(s, a, c) == (s, Swapped(PgOutcome(None, Lookup(s.mandates, a.id))))
  {
    assert s.(mandates := s.mandates) == s;
  }

  lemma StepRefines(lib: Library, w: PgWorld, step: Step)
    requires OnlySwapsRead(lib, w) && !OddRead(lib, w, step)
    ensures OnlySwapsRead(lib, PgApply(lib, w, step))
    ensures Plain(PgApply(lib, w, step)) == if FailedUpdate(lib, w, step) then Plain(w) else Apply(lib, Plain(w), step)
  {
    hide Awaits, PgMove, Exec;
    var v := PgApply(lib, w, step);
    match step
    case Issue(_) =>
    case Start(op) => assert AtStart(op) ==> Plain(v).ops == Plain(w).ops + [op];
    case Move(i, c) =>
      if i < |w.ops| {
        MoveRefines(lib, w.s, w.ops[i], c);
        assert Plain(v).ops == Plain(w).ops[i := v.ops[i].op];
        assert Plain(w).ops[i := w.ops[i].op] == Plain(w).ops;
      }
  }

  /** The caller of an odd read is told of a conflict with the version it expected; nothing else happens. */
  function Misled(lib: Library, u: World, i: nat): World
    requires i < |u.ops| && Awaits(lib, u.ops[i]).SwapMandate?
  {
    var expected := Awaits(lib, u.ops[i]).expected;
    u.(ops := u.ops[i := Resume(lib, u.ops[i], Swapped(Conflict(expected)))])
  }

  lemma OddReadMisleads(lib: Library, w: PgWorld, step: Step)
    requires OnlySwapsRead(lib, w) && OddRead(lib, w, step)
    ensures Plain(PgApply(lib, w, step)) == Misled(lib, Plain(w), step.who)
    ensures OnlySwapsRead(lib, PgApply(lib, w, step))
  {
    hide Awaits, Resume;
    var v := PgApply(lib, w, step);
    assert Plain(v).ops == Plain(w).ops[step.who := v.ops[step.who].op];
  }

  /** Every statement of every run, as the machine sees it: no step, one step, or one caller misled. */
  lemma StepSeen(lib: Library, w: PgWorld, step: Step)
    requires OnlySwapsRead(lib, w)
    ensures OnlySwapsRead(lib, PgApply(lib, w, step))
    ensures Plain(PgApply(lib, w, step)) ==
      if OddRead(lib, w, step) then Misled(lib, Plain(w), step.who)
      else if FailedUpdate(lib, w, step) then Plain(w)
      else Apply(lib, Plain(w), step)
  {
    hide Awaits, Resume, PgApply, Apply, FailedUpdate, OnlySwapsRead;
    if OddRead(lib, w, step) {
      OddReadMisleads(lib, w, step);
    } else {
      StepRefines(lib, w, step);
    }
  }

  lemma {:induction false} SwapsAlwaysRead(lib: Library, steps: seq<Step>)
    ensures OnlySwapsRead(lib, PgReach(lib, steps))
  {
    hide PgApply, OddRead, FailedUpdate;
    if steps != [] {
      SwapsAlwaysRead(lib, steps[..|steps| - 1]);
      StepSeen(lib, PgReach(lib, steps[..|steps| - 1]), steps[|steps| - 1]);
    }
  }

  /** No SELECT of the run finds the version its swap expected. */
  ghost predicate NoOddRead(lib: Library, steps: seq<Step>) {
    forall k :: 0 <= k < |steps| ==> !OddRead(lib, PgReach(lib, steps[..k]), steps[k])
  }

  /** The machine's steps: everything but the updates that changed no row. */
  function MachineSteps(lib: Library, steps: seq<Step>): seq<Step> {
    if steps == [] then []
    else
      var before, last := steps[..|steps| - 1], steps[|steps| - 1];
      MachineSteps(lib, before) + if FailedUpdate(lib, PgReach(lib, before), last) then [] else [last]
  }

  /** Every such run over Postgres is a run of the machine, each failed swap standing at its SELECT. */
  lemma {:induction false} PgRunIsMachineRun(lib: Library, steps: seq<Step>)
    requires NoOddRead(lib, steps)
    ensures OnlySwapsRead(lib, PgReach(lib, steps))
    ensures Reach(lib, MachineSteps(lib, steps)) == Plain(PgReach(lib, steps))
  {
    hide Apply, PgApply, FailedUpdate, OnlySwapsRead, OddRead;
    if steps == [] {
      EmptyRefines(lib);
    } else {
      var n := |steps| - 1;
      var before, last := steps[..n], steps[n];
      forall k | 0 <= k < n ensures !OddRead(lib, PgReach(lib, before[..k]), before[k]) {
        assert before[..k] == steps[..k];
      }
      PgRunIsMachineRun(lib, before);
      StepRefines(lib, PgReach(lib, before), last);
      ReachSnoc(lib, MachineSteps(lib, before), last);
      assert MachineSteps(lib, before) + [] == MachineSteps(lib, before);
    }
  }

  lemma EmptyRefines(lib: Library)
    ensures OnlySwapsRead(lib, PgReach(lib, [])) && Reach(lib, []) == Plain(PgReach(lib, []))
  {
  }

  // ----- When no read is odd

  /**
   An update that changes no row finds one at a later version: its caller did not look ahead, and the mandate
   exists.
   */
  predicate InformedStep(lib: Library, w: PgWorld, step: Step) {
    FailedUpdate(lib, w, step) ==> Behind(w.s, Awaits(lib, w.ops[step.who].op))
  }

  ghost predicate Informed(lib: Library, steps: seq<Step>) {
    forall k :: 0 <= k < |steps| ==> InformedStep(lib, PgReach(lib, steps[..k]), steps[k])
  }

  predicate Behind(s: Stores, a: Await) {
    a.SwapMandate? && a.id in s.mandates && a.expected < s.mandates[a.id].version
  }

  ghost predicate ReadersBehind(lib: Library, w: PgWorld) {
    forall i :: 0 <= i < |w.ops| && w.ops[i].Reading? ==> Behind(w.s, Awaits(lib, w.ops[i].op))
  }

  lemma StepKeepsBehind(lib: Library, w: PgWorld, step: Step)
    requires ReadersBehind(lib, w) && InformedStep(lib, w, step)
    ensures !OddRead(lib, w, step) && ReadersBehind(lib, PgApply(lib, w, step))
  {
    hide Awaits, PgMove, Grows, Apply, Exec;
    assert OnlySwapsRead(lib, w);
    StepRefines(lib, w, step);
    StepGrows(lib, Plain(w), step);
    GrowsReflexive(w.s);
    var v := PgApply(lib, w, step);
    forall i | 0 <= i < |v.ops| && v.ops[i].Reading? ensures Behind(v.s, Awaits(lib, v.ops[i].op)) {
      ReaderStood(lib, w, step, i);
      StaysBehind(w.s, v.s, Awaits(lib, v.ops[i].op));
    }
  }

  lemma ReaderStood(lib: Library, w: PgWorld, step: Step, i: nat)
    requires OnlySwapsRead(lib, w) && !OddRead(lib, w, step)
    requires i < |PgApply(lib, w, step).ops| && PgApply(lib, w, step).ops[i].Reading?
    ensures i < |w.ops| && w.ops[i].op == PgApply(lib, w, step).ops[i].op
    ensures w.ops[i].Reading? || (FailedUpdate(lib, w, step) && step.who == i)
  {
    hide Awaits, PgMove, Exec;
    if step.Move? && step.who < |w.ops| {
      MoveRefines(lib, w.s, w.ops[step.who], step.choice);
    }
  }

  lemma StaysBehind(s: Stores, t: Stores, a: Await)
    requires Grows(s, t) && Behind(s, a)
    ensures Behind(t, a)
  {
    assert Newer(s.mandates[a.id], t.mandates[a.id]);
  }

  /** Callers that do not look ahead, on mandates that exist, never meet the odd answer. */
  lemma {:induction false} InformedHasNoOddRead(lib: Library, steps: seq<Step>)
    requires Informed(lib, steps)
    ensures NoOddRead(lib, steps) && ReadersBehind(lib, PgReach(lib, steps))
  {
    hide PgApply, FailedUpdate, OddRead, ReadersBehind, Behind, InformedStep;
    if steps == [] {
      NobodyReads(lib);
    } else {
      var n := |steps| - 1;
      var before := steps[..n];
      forall k | 0 <= k < n ensures InformedStep(lib, PgReach(lib, before[..k]), before[k]) {
        assert before[..k] == steps[..k];
      }
      InformedHasNoOddRead(lib, before);
      StepKeepsBehind(lib, PgReach(lib, before), steps[n]);
      forall k | 0 <= k < |steps| ensures !OddRead(lib, PgReach(lib, steps[..k]), steps[k]) {
        if k < n {
          assert before[..k] == steps[..k];
        }
      }
    }
  }

  lemma NobodyReads(lib: Library)
    ensures ReadersBehind(lib, PgReach(lib, []))
  {
  }
}
