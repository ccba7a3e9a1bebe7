/** Operations that run alone, one awaited call after the other. */
module Runs {
  import opened Records
  import opened Stores
  import opened DispatchProgram
  import opened ResolveProgram
  import opened DeliverProgram
  import opened DecideProgram
  import opened Machine

  predicate AsksProvider(a: Await) {
    a.CreateDeployment? || a.FindCorrelated?
  }

  predicate Answering(cs: seq<Choice>, answer: Option<int>) {
    forall i :: 0 <= i < |cs| ==> cs[i].answer == answer
  }

  /**
   Moved alone some number of times, the operation takes stores s to t and itself from op to next,
   while the provider answers `answer` whenever it is asked.
   */
  ghost predicate Leads(lib: Library, s: Stores, op: Op, t: Stores, next: Op, answer: Option<int>) {
    exists cs :: Drive(lib, s, op, cs) == (t, next) && Answering(cs, answer)
  }

  lemma Standing(lib: Library, s: Stores, op: Op, answer: Option<int>)
    ensures Leads(lib, s, op, s, op, answer)
  {
    assert Drive(lib, s, op, []) == (s, op);
  }

  lemma OnlyProviderAnswers(t: Stores, a: Await, c: Choice, answer: Option<int>)
    requires c.answer == answer || !AsksProvider(a)
    ensures Perform(t, a, c) == Perform(t, a, c.(answer := answer))
  {
  }

  lemma Onward(lib: Library, s: Stores, op: Op, t: Stores, next: Op, c: Choice, answer: Option<int>)
    requires Leads(lib, s, op, t, next, answer)
    requires c.answer == answer || !AsksProvider(Awaits(lib, next))
    ensures var (u, reply) := Perform(t, Awaits(lib, next), c); Leads(lib, s, op, u, Resume(lib, next, reply), answer)
  {
    hide Perform, DispatchAwaits, ResolveAwaits, DeliverAwaits, DecideAwaits, ProposeAwaits, Resume;
    var cs :| Drive(lib, s, op, cs) == (t, next) && Answering(cs, answer);
    var d := c.(answer := answer);
    OnlyProviderAnswers(t, Awaits(lib, next), c, answer);
    DriveSnoc(lib, s, op, cs, d);
    var (u, reply) := Perform(t, Awaits(lib, next), d);
    assert Drive(lib, s, op, cs + [d]) == (u, Resume(lib, next, reply));
  }

  lemma LeadsOn(lib: Library, s: Stores, op: Op, t: Stores, next: Op, u: Stores, last: Op, answer: Option<int>)
    requires Leads(lib, s, op, t, next, answer) && Leads(lib, t, next, u, last, answer)
    ensures Leads(lib, s, op, u, last, answer)
  {
    hide Exec;
    var a :| Drive(lib, s, op, a) == (t, next) && Answering(a, answer);
    var b :| Drive(lib, t, next, b) == (u, last) && Answering(b, answer);
    DriveConcat(lib, s, op, a, b);
    assert Drive(lib, s, op, a + b) == (u, last);
  }

  /** Leading somewhere in a run: the run goes on there, with nothing else moving. */
  lemma LeadsIsRun(lib: Library, steps: seq<Step>, i: nat, t: Stores, next: Op, answer: Option<int>)
    returns (cs: seq<Choice>)
    requires i < |Reach(lib, steps).ops| && Leads(lib, Reach(lib, steps).s, Reach(lib, steps).ops[i], t, next, answer)
    ensures Reach(lib, steps + Moves(i, cs)) == World(t, Reach(lib, steps).ops[i := next])
  {
    hide Exec, Apply;
    cs :| Drive(lib, Reach(lib, steps).s, Reach(lib, steps).ops[i], cs) == (t, next);
    DriveIsRun(lib, steps, i, cs);
  }
}
