/** What the joint invariant says about whole runs without version lookahead. */
module MandateLife {
  import opened Records
  import opened Stores
  import opened Machine
  import opened Lifecycle
  import opened NoLookahead

  function MandateAt(lib: Library, steps: seq<Step>, m: string): Option<Mandate> {
    Lookup(Reach(lib, steps).s.mandates, m)
  }

  /** issued(1) → reserved(2) → consumed or quarantined(3), then quarantined → consumed or abandoned(4). */
  predicate NextLife(a: Option<Mandate>, b: Option<Mandate>) {
    || a == b
    || (a == None && b == Some(Mandate(1, Issued)))
    || (a == Some(Mandate(1, Issued)) && b == Some(Mandate(2, Reserved)))
    || (a == Some(Mandate(2, Reserved)) && b in {Some(Mandate(3, Consumed)), Some(Mandate(3, Quarantined))})
    || (a == Some(Mandate(3, Quarantined)) && b in {Some(Mandate(4, Consumed)), Some(Mandate(4, Abandoned))})
  }

  predicate IsFinal(m: Option<Mandate>) {
    m.Some? && m.value.state in {Consumed, Abandoned}
  }

  lemma ViewNextLife(v: View, v': View, held: bool, closing: bool)
    requires ShapeOk(v) && ShapeOk(v') && Changes(v, v', held, closing)
    ensures NextLife(v.mandate, v'.mandate)
  {
  }

  lemma StepNextLife(lib: Library, w: World, step: Step, m: string)
    requires Joint(w) && PoliteWorld(w)
    ensures NextLife(Lookup(w.s.mandates, m), Lookup(Apply(lib, w, step).s.mandates, m))
  {
    StepKeepsJoint(lib, w, step);
    assert ShapeOk(ViewOf(w.s, m)) && ShapeOk(ViewOf(Apply(lib, w, step).s, m));
    if step.Move? && step.who < |w.ops| {
      var i, c := step.who, step.choice;
      var (t, next) := Exec(lib, w.s, w.ops[i], c);
      var v := World(t, w.ops[i := next]);
      assert OpFits(w.s, w.ops[i]);
      ExecMoves(lib, w.s, w.ops[i], c);
      KeyedKept(w.s, w.ops[i], lib, c);
      ChangeOfMove(w, i, v, m);
      ViewNextLife(ViewOf(w.s, m), ViewOf(t, m), HoldingOp(w.ops[i], m), ClosingOp(w.ops[i], m));
    }
  }

  /** Every step of every run without lookahead takes each mandate along the one path, or leaves it. */
  lemma MandatePath(lib: Library, steps: seq<Step>, k: nat, m: string)
    requires PoliteRun(lib, steps) && k < |steps|
    ensures NextLife(MandateAt(lib, steps[..k], m), MandateAt(lib, steps[..k + 1], m))
  {
    PoliteRunPrefix(lib, steps, k);
    JointAlways(lib, steps[..k]);
    assert steps[..k + 1][..k] == steps[..k];
    StepNextLife(lib, Reach(lib, steps[..k]), steps[k], m);
  }

  lemma FinalInWorld(w: World, m: string)
    requires Joint(w) && IsFinal(Lookup(w.s.mandates, m))
    ensures Lookup(w.s.mandates, m)
      in {Some(Mandate(3, Consumed)), Some(Mandate(4, Consumed)), Some(Mandate(4, Abandoned))}
  {
    assert ShapeOk(ViewOf(w.s, m));
  }

  /** A final mandate has one of its three final records. */
  lemma FinalRecords(lib: Library, steps: seq<Step>, m: string)
    requires PoliteRun(lib, steps) && IsFinal(MandateAt(lib, steps, m))
    ensures MandateAt(lib, steps, m)
      in {Some(Mandate(3, Consumed)), Some(Mandate(4, Consumed)), Some(Mandate(4, Abandoned))}
  {
    JointAlways(lib, steps);
    FinalInWorld(Reach(lib, steps), m);
  }

  /** Consumed and abandoned are absorbing: from then on the record never changes. */
  lemma {:induction false} FinalForever(lib: Library, steps: seq<Step>, k: nat, m: string)
    requires PoliteRun(lib, steps) && k <= |steps|
    requires IsFinal(MandateAt(lib, steps[..k], m))
    ensures MandateAt(lib, steps, m) == MandateAt(lib, steps[..k], m)
  {
    if k == |steps| {
      assert steps[..k] == steps;
    } else {
      var n := |steps| - 1;
      PoliteRunPrefix(lib, steps, n);
      assert steps[..n][..k] == steps[..k];
      FinalForever(lib, steps[..n], k, m);
      FinalRecords(lib, steps[..n], m);
      MandatePath(lib, steps, n, m);
      assert steps[..n + 1] == steps;
    }
  }

  lemma JointIsKeyed(w: World)
    requires Joint(w)
    ensures Keyed(w.s.attempts)
  {
  }

  // Who is about to write a deployment id finds none there.
  lemma WritesFirstId(lib: Library, s: Stores, op: Op)
    requires Keyed(s.attempts) && OpFits(s, op) && Awaits(lib, op).SetAttemptDeployment?
    ensures var id := Awaits(lib, op).id; id in s.attempts ==> s.attempts[id].deployment.None?
  {
  }

  lemma OnlyIdsWriteIds(s: Stores, a: Await, c: Choice, id: string)
    requires id in s.attempts && !(a.SetAttemptDeployment? && a.id == id)
    ensures id in Perform(s, a, c).0.attempts
    ensures Perform(s, a, c).0.attempts[id].deployment == s.attempts[id].deployment
  {
  }

  lemma DeploymentStays(lib: Library, w: World, step: Step, id: string)
    requires Joint(w) && id in w.s.attempts && w.s.attempts[id].deployment.Some?
    ensures var t := Apply(lib, w, step).s; id in t.attempts && t.attempts[id].deployment == w.s.attempts[id].deployment
  {
    hide Perform, Awaits, Resume, OpFits;
    if step.Move? && step.who < |w.ops| {
      var op := w.ops[step.who];
      assert OpFits(w.s, op);
      if Awaits(lib, op).SetAttemptDeployment? {
        WritesFirstId(lib, w.s, op);
      }
      OnlyIdsWriteIds(w.s, Awaits(lib, op), step.choice, id);
    }
  }

  lemma IdBeside(lib: Library, w: World, step: Step, id: string)
    requires Joint(w)
    ensures var t := Apply(lib, w, step).s;
      id in w.s.attempts && w.s.attempts[id].deployment.Some? ==>
        id in t.attempts && t.attempts[id].deployment == w.s.attempts[id].deployment
  {
    hide Apply, Joint;
    if id in w.s.attempts && w.s.attempts[id].deployment.Some? {
      DeploymentStays(lib, w, step, id);
    }
  }

  /** Without lookahead a stored deployment id is never changed. */
  lemma {:induction false} DeploymentForever(lib: Library, steps: seq<Step>, k: nat, id: string)
    requires PoliteRun(lib, steps) && k <= |steps| && id in Reach(lib, steps[..k]).s.attempts
    requires Reach(lib, steps[..k]).s.attempts[id].deployment.Some?
    ensures id in Reach(lib, steps).s.attempts
    ensures Reach(lib, steps).s.attempts[id].deployment == Reach(lib, steps[..k]).s.attempts[id].deployment
  {
    hide Apply, Joint, PoliteWorld;
    if k == |steps| {
      assert steps[..k] == steps;
    } else {
      var n := |steps| - 1;
      PoliteRunPrefix(lib, steps, n);
      assert steps[..n][..k] == steps[..k];
      DeploymentForever(lib, steps[..n], k, id);
      JointAlways(lib, steps[..n]);
      DeploymentStays(lib, Reach(lib, steps[..n]), steps[n], id);
    }
  }

  lemma HolderInWorld(w: World, m: string) returns (i: nat)
    requires Joint(w) && Lookup(w.s.mandates, m) == Some(Mandate(2, Reserved))
    ensures i < |w.ops| && HoldingOp(w.ops[i], m)
    ensures forall j :: 0 <= j < |w.ops| && HoldingOp(w.ops[j], m) ==> j == i
  {
    assert Version(ViewOf(w.s, m)) == 2;
    i :| 0 <= i < |w.ops| && HoldingOp(w.ops[i], m);
    forall j | 0 <= j < |w.ops| && HoldingOp(w.ops[j], m) ensures j == i {
      assert WonOp(w.ops[i], m) && WonOp(w.ops[j], m);
    }
  }

  /** A reserved mandate is held by exactly one dispatch in flight (perhaps crashed). */
  lemma {:induction false} ReservedHasOneHolder(lib: Library, steps: seq<Step>, m: string) returns (i: nat)
    requires PoliteRun(lib, steps) && MandateAt(lib, steps, m) == Some(Mandate(2, Reserved))
    ensures i < |Reach(lib, steps).ops| && HoldingOp(Reach(lib, steps).ops[i], m)
    ensures forall j :: 0 <= j < |Reach(lib, steps).ops| && HoldingOp(Reach(lib, steps).ops[j], m) ==> j == i
  {
    JointAlways(lib, steps);
    i := HolderInWorld(Reach(lib, steps), m);
  }

  /** When reserve_and_dispatch completes, its swap applies and its attempt is there: the error arms are dead code. */
  lemma {:induction false} CompletionNeverConflicts(lib: Library, steps: seq<Step>, i: nat)
    requires PoliteRun(lib, steps) && i < |Reach(lib, steps).ops| && Reach(lib, steps).ops[i].DispatchOp?
    ensures var s, job, pc := Reach(lib, steps).s, Reach(lib, steps).ops[i].dispatch, Reach(lib, steps).ops[i].dpc;
      && (pc.Consume? ==> Cas(s.mandates, job.mandate, job.expected + 1, Consumed).1 == Applied(3))
      && (pc.Quarantine? ==> Cas(s.mandates, job.mandate, job.expected + 1, Quarantined).1 == Applied(3))
      && (pc.Finished? ==> !pc.result.AlreadyConsumed? && !pc.result.MandateVanished?
                           && !pc.result.AttemptExists? && !pc.result.AttemptMissing?)
  {
    JointAlways(lib, steps);
    PoliteRunPrefix(lib, steps, |steps|);
    assert steps[..|steps|] == steps;
    assert OpFits(Reach(lib, steps).s, Reach(lib, steps).ops[i]) && Polite(Reach(lib, steps).ops[i]);
  }

  /** What a mandate's state says about its attempt and about the provider, in every reachable world. */
  lemma {:induction false} StateTellsOutcome(lib: Library, steps: seq<Step>, m: string)
    requires PoliteRun(lib, steps) && m in Reach(lib, steps).s.mandates
    ensures var s, id := Reach(lib, steps).s, AttemptId(m);
      var state := s.mandates[m].state;
      && state in {Issued, Reserved, Consumed, Quarantined, Abandoned}
      && (state == Issued ==> id !in s.attempts && !Called(s.provider, m))
      && (state in {Consumed, Quarantined, Abandoned} ==> id in s.attempts && Called(s.provider, m))
      && (state in {Quarantined, Abandoned} ==> s.attempts[id].deployment == None)
      && (state == Consumed && s.mandates[m].version == 3 ==>
            s.attempts[id].state == Accepted && s.attempts[id].deployment.Some?)
  {
    JointAlways(lib, steps);
    assert ShapeOk(ViewOf(Reach(lib, steps).s, m));
  }
}
