/** Safety over all runs, with no hypothesis on the versions callers pass. */
module AnyVersion {
  import opened Records
  import opened Stores
  import opened DispatchProgram
  import opened ResolveProgram
  import opened DeliverProgram
  import opened DecideProgram
  import opened Machine
  import opened Growth

  // ----- At most one provider call for each mandate

  /** The operation inserted the attempt for m and has not called the provider yet. */
  ghost predicate AboutToCall(op: Op, m: string) {
    op.DispatchOp? && op.dispatch.mandate == m && InWindow(op.dpc)
  }

  ghost predicate NoRepeat(calls: seq<ProviderCall>) {
    forall i, j :: 0 <= i < j < |calls| ==> calls[i].mandate != calls[j].mandate
  }

  ghost predicate CallsOk(w: World) {
    && NoRepeat(w.s.provider)
    && (forall k :: 0 <= k < |w.s.provider| ==> AttemptId(w.s.provider[k].mandate) in w.s.attempts)
    && (forall i, m :: 0 <= i < |w.ops| && AboutToCall(w.ops[i], m) ==>
          AttemptId(m) in w.s.attempts && !Called(w.s.provider, m))
    && (forall i, j, m :: 0 <= i < j < |w.ops| && AboutToCall(w.ops[i], m) ==> !AboutToCall(w.ops[j], m))
  }

  // Only CreateDeployment reaches the provider, and only a dispatch at CallProvider awaits it.
  lemma CallsComeFromCallProvider(lib: Library, s: Stores, op: Op, c: Choice)
    ensures var (t, reply) := Perform(s, Awaits(lib, op), c);
      if op.DispatchOp? && op.dpc.CallProvider?
      then reply.Answered? && t.attempts == s.attempts && t.provider == s.provider + [Awaits(lib, op).call]
      else t.provider == s.provider
  {
    PerformProvider(s, Awaits(lib, op), c);
    match op
    case DispatchOp(job, pc) => WindowEdges(lib, job, pc, NoReply);
    case _ =>
  }

  lemma PerformProvider(s: Stores, a: Await, c: Choice)
    ensures var (t, reply) := Perform(s, a, c);
      if a.CreateDeployment? then reply.Answered? && t.attempts == s.attempts && t.provider == s.provider + [a.call]
      else t.provider == s.provider
    ensures var (t, reply) := Perform(s, a, c);
      a.PutAttempt? && reply == Stored(true) ==> a.attempt.id !in s.attempts && a.attempt.id in t.attempts
  {
  }

  // An operation enters the window only by inserting an attempt that was not there.
  lemma EntersByInsert(lib: Library, s: Stores, op: Op, c: Choice, m: string)
    requires !AboutToCall(op, m)
    ensures var (t, next) := Exec(lib, s, op, c);
      AboutToCall(next, m) ==> AttemptId(m) !in s.attempts && AttemptId(m) in t.attempts && t.provider == s.provider
  {
    var (t, reply) := Perform(s, Awaits(lib, op), c);
    if op.DispatchOp? {
      WindowEdges(lib, op.dispatch, op.dpc, reply);
      PerformProvider(s, Awaits(lib, op), c);
    }
  }

  lemma StepKeepsCallsOk(lib: Library, w: World, step: Step)
    requires CallsOk(w)
    ensures CallsOk(Apply(lib, w, step))
  {
    if step.Move? && step.who < |w.ops| {
      MoveKeepsCallsOk(lib, w, step.who, step.choice);
    }
  }

  lemma MoveKeepsCallsOk(lib: Library, w: World, i: nat, c: Choice)
    requires CallsOk(w) && i < |w.ops|
    ensures CallsOk(Apply(lib, w, Move(i, c)))
  {
    var op := w.ops[i];
    var (t, reply) := Perform(w.s, Awaits(lib, op), c);
    var next := Resume(lib, op, reply);
    CallsComeFromCallProvider(lib, w.s, op, c);
    PerformGrows(w.s, Awaits(lib, op), c);
    if op.DispatchOp? {
      WindowEdges(lib, op.dispatch, op.dpc, reply);
      if op.dpc.CallProvider? {
        assert AboutToCall(op, op.dispatch.mandate);
      } else if !AboutToCall(op, op.dispatch.mandate) {
        EntersByInsert(lib, w.s, op, c, op.dispatch.mandate);
      }
    }
    WindowKept(w, World(t, w.ops[i := next]), i);
  }

  // The three ways a move of operation i can leave the invariant standing.
  lemma WindowKept(w: World, v: World, i: nat)
    requires CallsOk(w) && i < |w.ops| && |v.ops| == |w.ops| && v.ops == w.ops[i := v.ops[i]]
    requires AttemptsGrow(w.s.attempts, v.s.attempts)
    requires v.ops[i].DispatchOp? == w.ops[i].DispatchOp?
    requires v.ops[i].DispatchOp? ==> v.ops[i].dispatch == w.ops[i].dispatch
    requires
      || (v.s.provider == w.s.provider
          && (v.ops[i].DispatchOp? ==>
                var m := v.ops[i].dispatch.mandate;
                InWindow(v.ops[i].dpc) ==>
                  InWindow(w.ops[i].dpc) || (AttemptId(m) !in w.s.attempts && AttemptId(m) in v.s.attempts)))
      || (w.ops[i].DispatchOp? && InWindow(w.ops[i].dpc) && !InWindow(v.ops[i].dpc)
          && |v.s.provider| == |w.s.provider| + 1 && v.s.provider[..|w.s.provider|] == w.s.provider
          && v.s.provider[|w.s.provider|].mandate == w.ops[i].dispatch.mandate)
    ensures CallsOk(v)
  {
    hide InWindow, AttemptId, NewerAttempt;
    if w.ops[i].DispatchOp? && InWindow(w.ops[i].dpc) {
      assert AboutToCall(w.ops[i], w.ops[i].dispatch.mandate);
    }
    var n := |w.s.provider|;
    assert forall k :: 0 <= k < n ==> v.s.provider[k] == v.s.provider[..n][k];
  }

  lemma {:induction false} CallsAlwaysOk(lib: Library, steps: seq<Step>)
    ensures CallsOk(Reach(lib, steps))
  {
    if steps != [] {
      CallsAlwaysOk(lib, steps[..|steps| - 1]);
      StepKeepsCallsOk(lib, Reach(lib, steps[..|steps| - 1]), steps[|steps| - 1]);
    }
  }

  /** In every run, with any versions and any crashes, the provider is called at most once for a mandate. */
  lemma {:induction false} AtMostOneProviderCall(lib: Library, steps: seq<Step>, i: nat, j: nat)
    requires i < |Reach(lib, steps).s.provider| && j < |Reach(lib, steps).s.provider|
    requires Reach(lib, steps).s.provider[i].mandate == Reach(lib, steps).s.provider[j].mandate
    ensures i == j
  {
    CallsAlwaysOk(lib, steps);
  }

  // ----- What precedes a provider call

  // The last move that brought operation i to where it stands.
  lemma {:induction false} LastMove(lib: Library, steps: seq<Step>, i: nat) returns (k: nat)
    requires i < |Reach(lib, steps).ops| && !AtStart(Reach(lib, steps).ops[i])
    ensures k < |steps| && steps[k].Move? && steps[k].who == i
    ensures i < |Reach(lib, steps[..k]).ops| && Reach(lib, steps[..k]).ops[i] != Reach(lib, steps).ops[i]
    ensures Reach(lib, steps[..k + 1]) == Apply(lib, Reach(lib, steps[..k]), steps[k])
    ensures i < |Reach(lib, steps[..k + 1]).ops| && Reach(lib, steps[..k + 1]).ops[i] == Reach(lib, steps).ops[i]
  {
    hide Apply, AtStart;
    var n := |steps| - 1;
    var before := Reach(lib, steps[..n]);
    StepOp(lib, before, steps[n], i);
    if i < |before.ops| && before.ops[i] == Reach(lib, steps).ops[i] {
      k := LastMove(lib, steps[..n], i);
      assert steps[..n][..k] == steps[..k] && steps[..n][..k + 1] == steps[..k + 1];
    } else {
      k := n;
      assert steps[..k + 1] == steps;
    }
  }

  /** Step k is operation i's move from a state with the given counter. */
  ghost predicate MovesFrom(lib: Library, steps: seq<Step>, k: nat, i: nat, job: DispatchJob, pc: DispatchPc) {
    && k < |steps| && steps[k].Move? && steps[k].who == i
    && i < |Reach(lib, steps[..k]).ops| && Reach(lib, steps[..k]).ops[i] == DispatchOp(job, pc)
  }

  ghost predicate SawApproval(lib: Library, steps: seq<Step>, k: nat, i: nat, job: DispatchJob) {
    && MovesFrom(lib, steps, k, i, job, CheckRequest)
    && job.request in Reach(lib, steps[..k]).s.requests
    && Reach(lib, steps[..k]).s.requests[job.request].status == Approved
  }

  ghost predicate WonReservation(lib: Library, steps: seq<Step>, k: nat, i: nat, job: DispatchJob) {
    && MovesFrom(lib, steps, k, i, job, Reserve)
    && job.mandate in Reach(lib, steps[..k]).s.mandates
    && Reach(lib, steps[..k]).s.mandates[job.mandate].version == job.expected
    && job.mandate in Reach(lib, steps[..k + 1]).s.mandates
    && Reach(lib, steps[..k + 1]).s.mandates[job.mandate] == Mandate(job.expected + 1, Reserved)
  }

  ghost predicate InsertedAttempt(lib: Library, steps: seq<Step>, k: nat, i: nat, job: DispatchJob) {
    && MovesFrom(lib, steps, k, i, job, InsertAttempt)
    && AttemptId(job.mandate) !in Reach(lib, steps[..k]).s.attempts
    && AttemptId(job.mandate) in Reach(lib, steps[..k + 1]).s.attempts
    && var a := Reach(lib, steps[..k + 1]).s.attempts[AttemptId(job.mandate)];
       IsAttemptOf(a, job) && a.state == Prepared && a.deployment == None
  }

  ghost predicate Journaled(lib: Library, steps: seq<Step>, k: nat, i: nat, job: DispatchJob) {
    && MovesFrom(lib, steps, k, i, job, AuditReserve)
    && k < |steps|
    && Audit(Some(job.executor), "reserve_mandate", "granted", job.mandate) in Reach(lib, steps[..k + 1]).s.audit
  }

  // One link of the chain: the move that brought operation i to `pc` at step k.
  lemma Predecessor(lib: Library, steps: seq<Step>, k: nat, i: nat, job: DispatchJob, pc: DispatchPc) returns (j: nat)
    requires MovesFrom(lib, steps, k, i, job, pc) && pc != CheckRequest
    ensures j < k && steps[j].Move? && steps[j].who == i && i < |Reach(lib, steps[..j]).ops|
    ensures Reach(lib, steps[..j + 1]) == Apply(lib, Reach(lib, steps[..j]), steps[j])
    ensures var op := Reach(lib, steps[..j]).ops[i]; op.DispatchOp? && op.dispatch == job && op.dpc != pc
    ensures i < |Reach(lib, steps[..j + 1]).ops| && Reach(lib, steps[..j + 1]).ops[i] == DispatchOp(job, pc)
  {
    j := LastMove(lib, steps[..k], i);
    assert steps[..k][..j] == steps[..j] && steps[..k][..j + 1] == steps[..j + 1];
  }

  lemma JournalLink(lib: Library, steps: seq<Step>, k: nat, i: nat, job: DispatchJob) returns (j: nat)
    requires MovesFrom(lib, steps, k, i, job, CallProvider)
    ensures j < k && Journaled(lib, steps, j, i, job)
  {
    hide Reach;
    j := Predecessor(lib, steps, k, i, job, CallProvider);
    var w, c := Reach(lib, steps[..j]), steps[j].choice;
    OneWayIn(w.ops[i].dpc, Perform(w.s, Awaits(lib, w.ops[i]), c).1);
    LogIsLast(w.s, Audit(Some(job.executor), "reserve_mandate", "granted", job.mandate), c);
  }

  lemma LogIsLast(s: Stores, e: Audit, c: Choice)
    ensures e in Perform(s, Log(e), c).0.audit
  {
    assert (s.audit + [e])[|s.audit|] == e;
  }

  lemma MarkLink(lib: Library, steps: seq<Step>, k: nat, i: nat, job: DispatchJob) returns (j: nat)
    requires MovesFrom(lib, steps, k, i, job, AuditReserve)
    ensures j < k && MovesFrom(lib, steps, j, i, job, MarkDispatching)
  {
    hide Reach;
    j := Predecessor(lib, steps, k, i, job, AuditReserve);
    var w, c := Reach(lib, steps[..j]), steps[j].choice;
    OneWayIn(w.ops[i].dpc, Perform(w.s, Awaits(lib, w.ops[i]), c).1);
  }

  lemma InsertLink(lib: Library, steps: seq<Step>, k: nat, i: nat, job: DispatchJob) returns (j: nat)
    requires MovesFrom(lib, steps, k, i, job, MarkDispatching)
    ensures j < k && InsertedAttempt(lib, steps, j, i, job)
  {
    hide Reach;
    j := Predecessor(lib, steps, k, i, job, MarkDispatching);
    var w, c := Reach(lib, steps[..j]), steps[j].choice;
    OneWayIn(w.ops[i].dpc, Perform(w.s, Awaits(lib, w.ops[i]), c).1);
  }

  lemma WinLink(lib: Library, steps: seq<Step>, k: nat, i: nat, job: DispatchJob) returns (j: nat)
    requires MovesFrom(lib, steps, k, i, job, InsertAttempt)
    ensures j < k && WonReservation(lib, steps, j, i, job)
  {
    hide Reach;
    j := Predecessor(lib, steps, k, i, job, InsertAttempt);
    var w, c := Reach(lib, steps[..j]), steps[j].choice;
    OneWayIn(w.ops[i].dpc, Perform(w.s, Awaits(lib, w.ops[i]), c).1);
  }

  lemma ApprovalLink(lib: Library, steps: seq<Step>, k: nat, i: nat, job: DispatchJob) returns (j: nat)
    requires MovesFrom(lib, steps, k, i, job, Reserve)
    ensures j < k && SawApproval(lib, steps, j, i, job)
  {
    hide Reach;
    j := Predecessor(lib, steps, k, i, job, Reserve);
    var w, c := Reach(lib, steps[..j]), steps[j].choice;
    OneWayIn(w.ops[i].dpc, Perform(w.s, Awaits(lib, w.ops[i]), c).1);
  }

  /**
   Each provider call comes, in the caller's own order, after a moment when its request was approved,
   its own winning swap, its own insertion of a fresh attempt, and its own audit event.
   */
  lemma ProviderCallHistory(lib: Library, steps: seq<Step>, k: nat, i: nat, job: DispatchJob)
    returns (approved: nat, won: nat, inserted: nat, journaled: nat)
    requires MovesFrom(lib, steps, k, i, job, CallProvider)
    ensures approved < won < inserted < journaled < k
    ensures SawApproval(lib, steps, approved, i, job)
    ensures WonReservation(lib, steps, won, i, job)
    ensures InsertedAttempt(lib, steps, inserted, i, job)
    ensures Journaled(lib, steps, journaled, i, job)
  {
    journaled := JournalLink(lib, steps, k, i, job);
    var marked := MarkLink(lib, steps, journaled, i, job);
    inserted := InsertLink(lib, steps, marked, i, job);
    won := WinLink(lib, steps, inserted, i, job);
    approved := ApprovalLink(lib, steps, won, i, job);
  }

  /** Every call in the provider's record was made by a dispatch's own move at `CallProvider`. */
  lemma {:induction false} CallHasMove(lib: Library, steps: seq<Step>, n: nat)
    returns (k: nat, i: nat, job: DispatchJob)
    requires n < |Reach(lib, steps).s.provider|
    ensures MovesFrom(lib, steps, k, i, job, CallProvider)
    ensures |Reach(lib, steps[..k]).s.provider| == n
    ensures Reach(lib, steps).s.provider[n] == DispatchAwaits(lib, job, CallProvider).call
  {
    hide Perform, Resume, DispatchAwaits, Grows;
    var last := |steps| - 1;
    var before := steps[..last];
    var w := Reach(lib, before);
    CallStays(lib, steps, n);
    if n < |w.s.provider| {
      k, i, job := CallHasMove(lib, before, n);
      assert before[..k] == steps[..k];
    } else {
      k, i := last, steps[last].who;
      CallsComeFromCallProvider(lib, w.s, w.ops[i], steps[last].choice);
      job := w.ops[i].dispatch;
    }
  }

  lemma CallStays(lib: Library, steps: seq<Step>, n: nat)
    requires steps != []
    ensures n < |Reach(lib, steps[..|steps| - 1]).s.provider| ==>
      n < |Reach(lib, steps).s.provider|
      && Reach(lib, steps).s.provider[n] == Reach(lib, steps[..|steps| - 1]).s.provider[n]
  {
    hide Apply;
    RunGrows(lib, steps, |steps| - 1);
  }

  /** So the whole history holds of every recorded call. */
  lemma {:induction false} RecordedCallHistory(lib: Library, steps: seq<Step>, n: nat)
    returns (i: nat, job: DispatchJob, approved: nat, won: nat, inserted: nat, journaled: nat, called: nat)
    requires n < |Reach(lib, steps).s.provider|
    ensures Reach(lib, steps).s.provider[n].mandate == job.mandate
    ensures approved < won < inserted < journaled < called < |steps|
    ensures MovesFrom(lib, steps, called, i, job, CallProvider) && |Reach(lib, steps[..called]).s.provider| == n
    ensures SawApproval(lib, steps, approved, i, job)
    ensures WonReservation(lib, steps, won, i, job)
    ensures InsertedAttempt(lib, steps, inserted, i, job)
    ensures Journaled(lib, steps, journaled, i, job)
  {
    hide Reach, SawApproval, WonReservation, InsertedAttempt, Journaled;
    called, i, job := CallHasMove(lib, steps, n);
    approved, won, inserted, journaled := ProviderCallHistory(lib, steps, called, i, job);
  }

  // ----- Read, check, swap is one atomic guarded transition

  ghost predicate SeenOk(s: Stores, op: Op) {
    match op
    case ResolveOp(job, FindAttempt(seen)) => SawQuarantine(s, job.mandate, seen)
    case ResolveOp(job, AskProvider(seen, _)) => SawQuarantine(s, job.mandate, seen)
    case ResolveOp(job, SwapResolved(seen, _, _)) => SawQuarantine(s, job.mandate, seen)
    case DecideOp(job, SwapStatus(seen)) =>
      job.request in s.requests && seen <= s.requests[job.request].version
      && (seen == s.requests[job.request].version ==> s.requests[job.request].status == Before(job.verb))
    case _ => true
  }

  ghost predicate SawQuarantine(s: Stores, m: string, seen: Mandate) {
    seen.state == Quarantined && m in s.mandates && Newer(seen, s.mandates[m])
  }

  lemma SeenStable(s: Stores, t: Stores, op: Op)
    requires Grows(s, t) && SeenOk(s, op)
    ensures SeenOk(t, op)
  {
  }

  lemma SeenExec(lib: Library, s: Stores, op: Op, c: Choice)
    requires SeenOk(s, op)
    ensures var (t, next) := Exec(lib, s, op, c); SeenOk(t, next)
  {
    hide DispatchAwaits, DispatchResume, DeliverAwaits, DeliverResume, ProposeAwaits, ProposeResume;
  }

  lemma {:induction false} SeenAlwaysOk(lib: Library, steps: seq<Step>, i: nat)
    requires i < |Reach(lib, steps).ops|
    ensures SeenOk(Reach(lib, steps).s, Reach(lib, steps).ops[i])
  {
    hide Perform, Awaits, Resume, Grows;
    var n := |steps| - 1;
    var before, step := Reach(lib, steps[..n]), steps[n];
    if i < |before.ops| {
      SeenAlwaysOk(lib, steps[..n], i);
      if step.Move? && step.who == i {
        SeenExec(lib, before.s, before.ops[i], step.choice);
      } else {
        StepGrows(lib, before, step);
        SeenStable(before.s, Reach(lib, steps).s, before.ops[i]);
      }
    }
  }

  /**
   Whatever the other callers do between the read and the swap: a resolution whose expected version
   is no newer than the one it read swaps only the very record it read, still quarantined.
   */
  lemma ResolutionIsGuarded(lib: Library, steps: seq<Step>, i: nat, seen: Mandate, a: Attempt, found: int)
    requires i < |Reach(lib, steps).ops|
    requires var op := Reach(lib, steps).ops[i]; op.ResolveOp? && op.rpc == SwapResolved(seen, a, found)
    requires Reach(lib, steps).ops[i].resolve.expected <= seen.version
    ensures var s, job := Reach(lib, steps).s, Reach(lib, steps).ops[i].resolve;
      Cas(s.mandates, job.mandate, job.expected, Consumed).1.Applied?
      <==> job.mandate in s.mandates && job.expected == seen.version && s.mandates[job.mandate] == seen
    ensures seen.state == Quarantined
  {
    SeenAlwaysOk(lib, steps, i);
  }

  /** The same for approve, reject and revoke. */
  lemma {:induction false} DecisionIsGuarded(lib: Library, steps: seq<Step>, i: nat, seen: int)
    requires i < |Reach(lib, steps).ops|
    requires var op := Reach(lib, steps).ops[i];
      op.DecideOp? && op.apc == SwapStatus(seen) && op.decide.expected <= seen
    ensures var s, job := Reach(lib, steps).s, Reach(lib, steps).ops[i].decide;
      CasStatus(s.requests, job.request, job.expected, After(job.verb)).1.Applied?
      ==> job.expected == seen && s.requests[job.request].status == Before(job.verb)
  {
    SeenAlwaysOk(lib, steps, i);
  }

  // ----- One processing for each delivery

  ghost predicate Recorded(op: Op, delivery: string) {
    op.DeliverOp? && op.deliver.delivery == delivery && Past(op.wpc)
  }

  ghost predicate DeliveriesOk(w: World) {
    && (forall i, d :: 0 <= i < |w.ops| && Recorded(w.ops[i], d) ==> d in w.s.deliveries)
    && (forall i, j, d :: 0 <= i < j < |w.ops| && Recorded(w.ops[i], d) ==> !Recorded(w.ops[j], d))
  }

  lemma MoveRecords(lib: Library, s: Stores, op: Op, c: Choice, d: string)
    requires Recorded(op, d) ==> d in s.deliveries
    ensures var (t, next) := Exec(lib, s, op, c);
      Recorded(next, d) ==> d in t.deliveries && (Recorded(op, d) || d !in s.deliveries)
  {
    var (t, reply) := Perform(s, Awaits(lib, op), c);
    PerformGrows(s, Awaits(lib, op), c);
    if op.DeliverOp? {
      PastByRecording(op.wpc, lib, op.deliver, reply);
    }
  }

  lemma StepKeepsDeliveriesOk(lib: Library, w: World, step: Step)
    requires DeliveriesOk(w)
    ensures DeliveriesOk(Apply(lib, w, step))
  {
    if step.Move? && step.who < |w.ops| {
      var (t, next) := Exec(lib, w.s, w.ops[step.who], step.choice);
      PerformGrows(w.s, Awaits(lib, w.ops[step.who]), step.choice);
      if next.DeliverOp? {
        MoveRecords(lib, w.s, w.ops[step.who], step.choice, next.deliver.delivery);
      }
      DeliveriesKept(w, step.who, World(t, w.ops[step.who := next]));
    }
  }

  lemma DeliveriesKept(w: World, i: nat, v: World)
    requires DeliveriesOk(w) && i < |w.ops| && |v.ops| == |w.ops| && v.ops == w.ops[i := v.ops[i]]
    requires Extends(w.s.deliveries, v.s.deliveries)
    requires v.ops[i].DeliverOp? && Past(v.ops[i].wpc) ==>
      var d := v.ops[i].deliver.delivery;
      d in v.s.deliveries && (Recorded(w.ops[i], d) || d !in w.s.deliveries)
    ensures DeliveriesOk(v)
  {
  }

  lemma {:induction false} DeliveriesAlwaysOk(lib: Library, steps: seq<Step>)
    ensures DeliveriesOk(Reach(lib, steps))
  {
    if steps != [] {
      DeliveriesAlwaysOk(lib, steps[..|steps| - 1]);
      StepKeepsDeliveriesOk(lib, Reach(lib, steps[..|steps| - 1]), steps[|steps| - 1]);
    }
  }

  /**
   However the get and the record of concurrent requests interleave, one delivery id is let through to processing
   once.
   */
  lemma DeliveryProcessedOnce(lib: Library, steps: seq<Step>, i: nat, j: nat)
    requires i < |Reach(lib, steps).ops| && j < |Reach(lib, steps).ops|
    requires var a, b := Reach(lib, steps).ops[i], Reach(lib, steps).ops[j];
      a.DeliverOp? && b.DeliverOp? && Past(a.wpc) && Past(b.wpc) && a.deliver.delivery == b.deliver.delivery
    ensures i == j
  {
    DeliveriesAlwaysOk(lib, steps);
    var w := Reach(lib, steps);
    var d := w.ops[i].deliver.delivery;
    assert Recorded(w.ops[i], d) && Recorded(w.ops[j], d);
  }
}
