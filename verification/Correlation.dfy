/** Every provider call carries the correlation data of the one journaled attempt it was made for. */
module Correlation {
  import opened Records
  import opened Stores
  import opened DispatchProgram
  import opened Machine
  import opened Growth
  import opened AnyVersion
  import opened Runs

  /** Between its insertion and the provider's answer the stored attempt is the operation's own. */
  ghost predicate OwnsAttempt(s: Stores, op: Op) {
    op.DispatchOp? && InWindow(op.dpc) ==>
      AttemptId(op.dispatch.mandate) in s.attempts
      && IsAttemptOf(s.attempts[AttemptId(op.dispatch.mandate)], op.dispatch)
  }

  lemma OwnsStays(s: Stores, t: Stores, op: Op)
    requires Grows(s, t) && OwnsAttempt(s, op)
    ensures OwnsAttempt(t, op)
  {
    if op.DispatchOp? && InWindow(op.dpc) {
      var id := AttemptId(op.dispatch.mandate);
      assert NewerAttempt(s.attempts[id], t.attempts[id]);
    }
  }

  lemma OwnsNext(lib: Library, s: Stores, op: Op, c: Choice)
    requires OwnsAttempt(s, op)
    ensures var (t, reply) := Perform(s, Awaits(lib, op), c); OwnsAttempt(t, Resume(lib, op, reply))
  {
    hide Perform, NewerAttempt, Grows;
    var (t, reply) := Perform(s, Awaits(lib, op), c);
    PerformGrows(s, Awaits(lib, op), c);
    OwnsStays(s, t, op);
    if op.DispatchOp? {
      WindowEdges(lib, op.dispatch, op.dpc, reply);
      if op.dpc.InsertAttempt? {
        InsertedIsOwn(s, op.dispatch, c);
      }
    }
  }

  lemma InsertedIsOwn(s: Stores, job: DispatchJob, c: Choice)
    ensures var (t, reply) := Perform(s, PutAttempt(NewAttempt(job)), c);
      reply == Stored(true) ==>
        AttemptId(job.mandate) in t.attempts && IsAttemptOf(t.attempts[AttemptId(job.mandate)], job)
  {
  }

  // An operation moved alone owns its attempt as well.
  lemma {:induction false} DriveOwns(lib: Library, s: Stores, op: Op, cs: seq<Choice>)
    requires OwnsAttempt(s, op)
    ensures var (t, next) := Drive(lib, s, op, cs); OwnsAttempt(t, next)
  {
    hide OwnsAttempt, Perform, Awaits, Resume;
    if cs != [] {
      var (t, next) := Drive(lib, s, op, cs[..|cs| - 1]);
      DriveOwns(lib, s, op, cs[..|cs| - 1]);
      OwnsNext(lib, t, next, cs[|cs| - 1]);
    }
  }

  lemma LeadsOwns(lib: Library, s: Stores, op: Op, t: Stores, next: Op, answer: Option<int>)
    requires OwnsAttempt(s, op) && Leads(lib, s, op, t, next, answer)
    ensures OwnsAttempt(t, next)
  {
    hide OwnsAttempt, Exec;
    var cs :| Drive(lib, s, op, cs) == (t, next);
    DriveOwns(lib, s, op, cs);
  }

  lemma {:induction false} OwnsAlways(lib: Library, steps: seq<Step>, i: nat)
    requires i < |Reach(lib, steps).ops|
    ensures OwnsAttempt(Reach(lib, steps).s, Reach(lib, steps).ops[i])
  {
    hide Perform, Awaits, Resume, Grows, OwnsAttempt;
    var n := |steps| - 1;
    var before, step := Reach(lib, steps[..n]), steps[n];
    StepGrows(lib, before, step);
    if i < |before.ops| {
      OwnsAlways(lib, steps[..n], i);
      if step.Move? && step.who == i {
        OwnsNext(lib, before.s, before.ops[i], step.choice);
      } else {
        OwnsStays(before.s, Reach(lib, steps).s, before.ops[i]);
      }
    } else {
      NewcomerOwnsNothing(Reach(lib, steps).s, step.op);
    }
  }

  lemma NewcomerOwnsNothing(s: Stores, op: Op)
    requires AtStart(op)
    ensures OwnsAttempt(s, op)
  {
  }

  /** The call names the stored attempt, its correlation key, and the digest of attempt, mandate and intent. */
  ghost predicate Matches(lib: Library, s: Stores, call: ProviderCall) {
    var id := AttemptId(call.mandate);
    && call.attempt == id && id in s.attempts && s.attempts[id].mandate == call.mandate
    && call.correlation == s.attempts[id].correlation
    && call.digest == lib.sha(id + "|" + call.mandate + "|" + s.attempts[id].intent)
  }

  lemma MatchesStays(lib: Library, s: Stores, t: Stores, call: ProviderCall)
    requires Grows(s, t) && Matches(lib, s, call)
    ensures Matches(lib, t, call)
  {
    var id := AttemptId(call.mandate);
    assert NewerAttempt(s.attempts[id], t.attempts[id]);
  }

  lemma OwnCallMatches(lib: Library, s: Stores, t: Stores, job: DispatchJob)
    requires OwnsAttempt(s, DispatchOp(job, CallProvider)) && t.attempts == s.attempts
    ensures Matches(lib, t, DispatchAwaits(lib, job, CallProvider).call)
  {
  }

  lemma StepMatches(lib: Library, w: World, step: Step, k: nat)
    requires k < |Apply(lib, w, step).s.provider|
    requires forall i :: 0 <= i < |w.ops| ==> OwnsAttempt(w.s, w.ops[i])
    requires k < |w.s.provider| ==> Matches(lib, w.s, w.s.provider[k])
    ensures Matches(lib, Apply(lib, w, step).s, Apply(lib, w, step).s.provider[k])
  {
    hide Perform, Resume, Matches, OwnsAttempt;
    StepGrows(lib, w, step);
    var v := Apply(lib, w, step);
    if k < |w.s.provider| {
      assert v.s.provider[k] == w.s.provider[k];
      MatchesStays(lib, w.s, v.s, w.s.provider[k]);
    } else {
      var op := w.ops[step.who];
      CallsComeFromCallProvider(lib, w.s, op, step.choice);
      OwnCallMatches(lib, w.s, v.s, op.dispatch);
    }
  }

  /** In every run, with any versions and any crashes, provider and journal agree on every call. */
  lemma {:induction false} CallsMatchJournal(lib: Library, steps: seq<Step>, k: nat)
    requires k < |Reach(lib, steps).s.provider|
    ensures Matches(lib, Reach(lib, steps).s, Reach(lib, steps).s.provider[k])
  {
    hide Apply, Matches, OwnsAttempt;
    var before := steps[..|steps| - 1];
    forall i | 0 <= i < |Reach(lib, before).ops| ensures OwnsAttempt(Reach(lib, before).s, Reach(lib, before).ops[i]) {
      OwnsAlways(lib, before, i);
    }
    if k < |Reach(lib, before).s.provider| {
      CallsMatchJournal(lib, before, k);
    }
    StepMatches(lib, Reach(lib, before), steps[|steps| - 1], k);
  }

  // ----- Who made an attempt

  lemma AttemptComesByPut(s: Stores, a: Await, c: Choice, id: string)
    requires id in Perform(s, a, c).0.attempts && id !in s.attempts
    ensures a.PutAttempt? && id == a.attempt.id && Perform(s, a, c).0.attempts[id] == a.attempt
  {
  }

  lemma StepInserts(lib: Library, w: World, step: Step, id: string) returns (job: DispatchJob)
    requires id in Apply(lib, w, step).s.attempts && id !in w.s.attempts
    ensures step.Move? && step.who < |w.ops| && w.ops[step.who] == DispatchOp(job, InsertAttempt)
    ensures id == AttemptId(job.mandate)
    ensures var a := Apply(lib, w, step).s.attempts[id];
      IsAttemptOf(a, job) && a.state == Prepared && a.deployment == None
  {
    hide Perform, Resume;
    var op := w.ops[step.who];
    AttemptComesByPut(w.s, Awaits(lib, op), step.choice, id);
    job := op.dispatch;
  }

  lemma SameInPrefix(lib: Library, steps: seq<Step>, n: nat, won: nat, inserted: nat, i: nat, job: DispatchJob)
    requires n <= |steps| && InsertedAttempt(lib, steps[..n], inserted, i, job)
    requires WonReservation(lib, steps[..n], won, i, job)
    ensures InsertedAttempt(lib, steps, inserted, i, job) && WonReservation(lib, steps, won, i, job)
  {
    hide Reach;
    assert steps[..n][..inserted] == steps[..inserted] && steps[..n][..inserted + 1] == steps[..inserted + 1];
    assert steps[..n][..won] == steps[..won] && steps[..n][..won + 1] == steps[..won + 1];
  }

  /**
   In every run, with any versions: every attempt in the journal was inserted by one dispatch that had won its
   reservation before, and holds to this day what that dispatch was called with.
   */
  lemma {:induction false} AttemptHasDispatch(lib: Library, steps: seq<Step>, id: string)
    returns (won: nat, inserted: nat, i: nat, job: DispatchJob)
    requires id in Reach(lib, steps).s.attempts
    ensures id == AttemptId(job.mandate) && IsAttemptOf(Reach(lib, steps).s.attempts[id], job)
    ensures won < inserted && WonReservation(lib, steps, won, i, job) && InsertedAttempt(lib, steps, inserted, i, job)
  {
    hide Apply, WonReservation, InsertedAttempt;
    var n := |steps| - 1;
    var w := Reach(lib, steps[..n]);
    if id in w.s.attempts {
      won, inserted, i, job := AttemptHasDispatch(lib, steps[..n], id);
      SameInPrefix(lib, steps, n, won, inserted, i, job);
      AttemptKeepsFields(lib, w, steps[n], id, job);
    } else {
      job := StepInserts(lib, w, steps[n], id);
      inserted, i := n, steps[n].who;
      LastInsert(lib, steps, job);
      won := WinLink(lib, steps, n, i, job);
    }
  }

  lemma LastInsert(lib: Library, steps: seq<Step>, job: DispatchJob)
    requires steps != [] && steps[|steps| - 1].Move?
    requires var n := |steps| - 1;
      var w, i := Reach(lib, steps[..n]), steps[n].who;
      && i < |w.ops| && w.ops[i] == DispatchOp(job, InsertAttempt) && AttemptId(job.mandate) !in w.s.attempts
      && AttemptId(job.mandate) in Reach(lib, steps).s.attempts
    requires var a := Reach(lib, steps).s.attempts[AttemptId(job.mandate)];
      IsAttemptOf(a, job) && a.state == Prepared && a.deployment == None
    ensures InsertedAttempt(lib, steps, |steps| - 1, steps[|steps| - 1].who, job)
  {
    hide Reach;
    assert steps[..|steps| - 1 + 1] == steps;
  }

  lemma AttemptKeepsFields(lib: Library, w: World, step: Step, id: string, job: DispatchJob)
    requires id in w.s.attempts && IsAttemptOf(w.s.attempts[id], job)
    ensures var t := Apply(lib, w, step).s; id in t.attempts && IsAttemptOf(t.attempts[id], job)
  {
    hide Apply;
    StepGrows(lib, w, step);
    assert NewerAttempt(w.s.attempts[id], Apply(lib, w, step).s.attempts[id]);
  }
}
