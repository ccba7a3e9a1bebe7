/**
 One mandate as the polite operations leave it: its projection, its attempt, whether the provider
 was called and whether the abandonment receipt is stored, against the counter of the operation that
 acts on it. Polite means: a dispatch expects version 1, and a resolution expects a version no newer
 than the one it read.
 */
module Lifecycle {
  import opened Records
  import opened Stores
  import opened DispatchProgram
  import opened ResolveProgram

  datatype View = View(mandate: Option<Mandate>, attempt: Option<Attempt>, called: bool, closed: bool)

  ghost function ViewOf(s: Stores, m: string): View {
    View(Lookup(s.mandates, m), Lookup(s.attempts, AttemptId(m)), Called(s.provider, m),
         AbandonedReceiptId(AttemptId(m)) in s.receipts)
  }

  function Version(v: View): int {
    if v.mandate.None? then 0 else v.mandate.value.version
  }

  ghost predicate Has(v: View, version: int, state: Label) {
    v.mandate == Some(Mandate(version, state))
  }

  ghost predicate Att(v: View, state: AttemptState, known: bool) {
    v.attempt.Some? && v.attempt.value.state == state && v.attempt.value.deployment.Some? == known
  }

  /** The states a mandate and its attempt can be in together. */
  ghost predicate ShapeOk(v: View) {
    || (v.mandate.None? && v.attempt.None? && !v.called && !v.closed)
    || (Has(v, 1, Issued) && v.attempt.None? && !v.called && !v.closed)
    || (Has(v, 2, Reserved) && !v.closed)
    || (Has(v, 3, Consumed) && Att(v, Accepted, true) && v.called && !v.closed)
    || (Has(v, 3, Quarantined) && Att(v, OutcomeAmbiguous, false) && v.called && !v.closed)
    || (Has(v, 4, Consumed) && (Att(v, OutcomeAmbiguous, false) || Att(v, OutcomeAmbiguous, true)
                                || Att(v, ReconciledAccepted, true))
        && v.called && !v.closed)
    || (Has(v, 4, Abandoned) && v.called
        && (Att(v, AbandonedAmbiguous, false) || (Att(v, OutcomeAmbiguous, false) && !v.closed)))
  }

  // ----- Dispatch

  /** Counters from the winning swap to the completing swap. */
  predicate Holding(pc: DispatchPc) {
    || pc.InsertAttempt? || pc.MarkDispatching? || pc.AuditReserve? || pc.CallProvider?
    || pc.MarkAccepted? || pc.StoreDeployment? || pc.Consume? || pc.MarkAmbiguous? || pc.Quarantine?
  }

  /** Counters only the winner of the reservation reaches. */
  predicate Won(pc: DispatchPc) {
    || Holding(pc) || pc.AuditConsume? || pc.AuditQuarantine?
    || (pc.Finished? && (pc.result.DispatchAccepted? || pc.result.DispatchFailed?))
  }

  ghost predicate DispatchFits(v: View, pc: DispatchPc) {
    && (Won(pc) ==> 2 <= Version(v))
    && (Won(pc) && !Holding(pc) ==> 3 <= Version(v))
    && (Holding(pc) ==> Has(v, 2, Reserved))
    && (pc.InsertAttempt? ==> v.attempt.None? && !v.called)
    && (pc.MarkDispatching? ==> Att(v, Prepared, false) && !v.called)
    && (pc.AuditReserve? || pc.CallProvider? ==> Att(v, Dispatching, false) && !v.called)
    && (pc.MarkAccepted? || pc.MarkAmbiguous? ==> Att(v, Dispatching, false) && v.called)
    && (pc.StoreDeployment? ==> Att(v, Accepted, false) && v.called)
    && (pc.Consume? ==> Att(v, Accepted, true) && v.called)
    && (pc.Quarantine? ==> Att(v, OutcomeAmbiguous, false) && v.called)
    // The error arms of the completion are dead.
    && (pc.Finished? ==> !pc.result.AttemptExists? && !pc.result.AttemptMissing?
                         && !pc.result.AlreadyConsumed? && !pc.result.MandateVanished?)
  }

  /** How one dispatch move may change its mandate's view. */
  ghost predicate DispatchEffect(v: View, pc: DispatchPc, v': View, next: DispatchPc) {
    && ShapeOk(v') && DispatchFits(v', next)
    && (Won(next) && !Won(pc) ==> Version(v) == 1)
    && (Version(v') == 2 ==> Holding(next) || (v' == v && !Holding(pc)))
    && (v' == v || (Version(v) == 1 && Version(v') == 2)
        || (Holding(pc) && Has(v, 2, Reserved) && Version(v') in {2, 3}))
  }

  lemma CalledAfterAppend(calls: seq<ProviderCall>, c: ProviderCall, m: string)
    ensures Called(calls + [c], m) <==> Called(calls, m) || c.mandate == m
  {
    assert c in calls + [c];
    assert forall x :: x in calls ==> x in calls + [c];
  }

  // ----- What an awaited call does to one mandate's view

  ghost predicate Keyed(m: map<string, Attempt>) {
    forall k :: k in m ==> m[k].id == k && k == AttemptId(m[k].mandate)
  }

  /** The call on the view of mandate m alone. Replies that do not depend on m's view are left to the caller. */
  ghost predicate ViewPerforms(v: View, m: string, a: Await, v': View, reply: Reply) {
    match a
    case SwapMandate(id, expected, state) => id == m ==>
      reply == Swapped(if v.mandate.None? then Missing
                       else if v.mandate.value.version == expected then Applied(expected + 1)
                       else Conflict(v.mandate.value.version))
      && v' == if Version(v) == expected && v.mandate.Some?
               then v.(mandate := Some(Mandate(expected + 1, state))) else v
    case GetMandate(id) => v' == v && (id == m ==> reply == GotMandate(v.mandate))
    case PutAttempt(x) => x.id == AttemptId(m) ==>
      reply == Stored(v.attempt.None?) && v' == if v.attempt.None? then v.(attempt := Some(x)) else v
    case SetAttemptState(id, to) => id == AttemptId(m) ==>
      && reply == Stored(v.attempt.Some?)
      && v' == if v.attempt.Some? then v.(attempt := Some(v.attempt.value.(state := to))) else v
    case SetAttemptDeployment(id, d) => id == AttemptId(m) ==>
      && reply == Stored(v.attempt.Some?)
      && v' == if v.attempt.Some? then v.(attempt := Some(v.attempt.value.(deployment := Some(d)))) else v
    case PutReceipt(r) => r.id == AbandonedReceiptId(AttemptId(m)) ==>
      reply == Stored(!v.closed) && v' == v.(closed := true)
    case CreateDeployment(call) => call.mandate == m ==> reply.Answered? && v' == v.(called := true)
    case FindAmbiguous(id) => v' == v && (id == m ==>
      reply == NoReply || (v.attempt.Some? && v.attempt.value.state == OutcomeAmbiguous
                           && reply == GotAttempt(v.attempt))
      || (!(v.attempt.Some? && v.attempt.value.state == OutcomeAmbiguous) && reply == GotAttempt(None)))
    case _ => v' == v
  }

  lemma PerformOnView(s: Stores, a: Await, c: Choice, m: string)
    requires Keyed(s.attempts)
    ensures var (t, reply) := Perform(s, a, c); ViewPerforms(ViewOf(s, m), m, a, ViewOf(t, m), reply)
  {
    hide Called, Keyed, IsAmbiguousOf, HasAmbiguous, HoldsDeployment, DeploymentKnown;
    match a
    case CreateDeployment(call) => CalledAfterAppend(s.provider, call, m);
    case FindAmbiguous(id) => AmbiguousOnView(s, id, c, m);
    case PutAttempt(x) => WriteOnView(s, a, c, m);
    case SetAttemptState(id, to) => WriteOnView(s, a, c, m);
    case SetAttemptDeployment(id, d) => WriteOnView(s, a, c, m);
    case _ => OtherOnView(s, a, c, m);
  }

  lemma WriteOnView(s: Stores, a: Await, c: Choice, m: string)
    requires a.PutAttempt? || a.SetAttemptState? || a.SetAttemptDeployment?
    ensures var (t, reply) := Perform(s, a, c); ViewPerforms(ViewOf(s, m), m, a, ViewOf(t, m), reply)
  {
    hide Called, HasAmbiguous, DeploymentKnown, AbandonedReceiptId;
  }

  lemma OtherOnView(s: Stores, a: Await, c: Choice, m: string)
    requires !a.PutAttempt? && !a.SetAttemptState? && !a.SetAttemptDeployment? && !a.CreateDeployment?
      && !a.FindAmbiguous?
    ensures var (t, reply) := Perform(s, a, c); ViewPerforms(ViewOf(s, m), m, a, ViewOf(t, m), reply)
  {
    hide Called, HasAmbiguous, DeploymentKnown, SetState, SetDeployment, AttemptId;
  }

  lemma AmbiguousOnView(s: Stores, id: string, c: Choice, m: string)
    requires Keyed(s.attempts)
    ensures var (t, reply) := Perform(s, FindAmbiguous(id), c);
      ViewPerforms(ViewOf(s, m), m, FindAmbiguous(id), ViewOf(t, m), reply)
  {
    hide Called;
    if id == m && AttemptId(m) in s.attempts {
      AmbiguousIsOwn(s.attempts, m);
    } else if id == m {
      NoAttemptNoAmbiguous(s.attempts, m);
    }
  }

  lemma AmbiguousIsOwn(attempts: map<string, Attempt>, m: string)
    requires Keyed(attempts) && AttemptId(m) in attempts
    ensures forall k ::
      IsAmbiguousOf(attempts, m, k) <==> k == AttemptId(m) && attempts[AttemptId(m)].state == OutcomeAmbiguous
  {
    AttemptIdInjective(attempts[AttemptId(m)].mandate, m);
  }

  lemma NoAttemptNoAmbiguous(attempts: map<string, Attempt>, m: string)
    requires Keyed(attempts) && AttemptId(m) !in attempts
    ensures !HasAmbiguous(attempts, m)
  {
  }

  // Before the winning swap only that swap changes the view, and only from (1, issued).
  lemma OutsiderStep(lib: Library, v: View, job: DispatchJob, pc: DispatchPc, v': View, reply: Reply)
    requires job.expected == 1 && ShapeOk(v) && DispatchFits(v, pc) && !Holding(pc)
    requires ViewPerforms(v, job.mandate, DispatchAwaits(lib, job, pc), v', reply)
    ensures DispatchEffect(v, pc, v', DispatchResume(pc, reply))
  {
  }

  // The first half of the holder's way: the attempt is inserted, marked, journaled, and the provider called.
  lemma HolderOpens(lib: Library, v: View, job: DispatchJob, pc: DispatchPc, v': View, reply: Reply)
    requires job.expected == 1 && ShapeOk(v) && DispatchFits(v, pc)
    requires pc.InsertAttempt? || InWindow(pc)
    requires ViewPerforms(v, job.mandate, DispatchAwaits(lib, job, pc), v', reply)
    ensures DispatchEffect(v, pc, v', DispatchResume(pc, reply))
  {
  }

  // The second half: the outcome is written to the attempt, then the mandate is swapped.
  lemma HolderCompletes(lib: Library, v: View, job: DispatchJob, pc: DispatchPc, v': View, reply: Reply)
    requires job.expected == 1 && ShapeOk(v) && DispatchFits(v, pc)
    requires Holding(pc) && !pc.InsertAttempt? && !InWindow(pc)
    requires ViewPerforms(v, job.mandate, DispatchAwaits(lib, job, pc), v', reply)
    ensures DispatchEffect(v, pc, v', DispatchResume(pc, reply))
  {
  }

  lemma DispatchStep(lib: Library, v: View, job: DispatchJob, pc: DispatchPc, v': View, reply: Reply)
    requires job.expected == 1 && ShapeOk(v) && DispatchFits(v, pc)
    requires ViewPerforms(v, job.mandate, DispatchAwaits(lib, job, pc), v', reply)
    ensures DispatchEffect(v, pc, v', DispatchResume(pc, reply))
  {
    if !Holding(pc) {
      OutsiderStep(lib, v, job, pc, v', reply);
    } else if pc.InsertAttempt? || InWindow(pc) {
      HolderOpens(lib, v, job, pc, v', reply);
    } else {
      HolderCompletes(lib, v, job, pc, v', reply);
    }
  }

  // ----- Resolution

  predicate Closing(pc: ResolvePc) {
    pc.RecordDeployment? || pc.MarkReconciled? || pc.MarkAbandoned? || pc.InsertUnknown?
  }

  /** Counters only the one resolution that swapped the quarantined mandate reaches. */
  predicate Settled(pc: ResolvePc) {
    Closing(pc) || pc.AuditAccepted? || pc.AuditAbandoned? || (pc.Closed? && pc.result.Resolved?)
  }

  predicate IsSeen(seen: Mandate, v: View) {
    && seen == Mandate(3, Quarantined) && 3 <= Version(v) && (Version(v) == 3 ==> v.mandate == Some(seen))
  }

  ghost predicate ResolveFits(v: View, job: ResolveJob, pc: ResolvePc) {
    && (Settled(pc) ==> Version(v) == 4)
    && match pc
       case FindAttempt(seen) => IsSeen(seen, v)
       case AskProvider(seen, a) => IsSeen(seen, v) && Carried(v, job, a)
       case SwapResolved(seen, a, _) => IsSeen(seen, v) && Carried(v, job, a)
       case RecordDeployment(a, _, _) =>
         a.id == AttemptId(job.mandate) && Has(v, 4, Consumed) && Att(v, OutcomeAmbiguous, false)
       case MarkReconciled(a, _) =>
         a.id == AttemptId(job.mandate) && Has(v, 4, Consumed) && Att(v, OutcomeAmbiguous, true)
       case MarkAbandoned(a, _) =>
         a.id == AttemptId(job.mandate) && Has(v, 4, Abandoned) && Att(v, OutcomeAmbiguous, false)
       case InsertUnknown(a, _) =>
         a.id == AttemptId(job.mandate) && Has(v, 4, Abandoned) && Att(v, AbandonedAmbiguous, false) && !v.closed
       case Closed(result) => !result.AttemptLost? && !result.ReceiptExists?
       case _ => true
  }

  /** The attempt the resolution carries is still the stored one while the mandate is still quarantined. */
  ghost predicate Carried(v: View, job: ResolveJob, a: Attempt) {
    a.id == AttemptId(job.mandate) && (Version(v) == 3 ==> v.attempt == Some(a))
  }

  predicate PoliteResolve(job: ResolveJob, pc: ResolvePc) {
    match pc
    case FindAttempt(seen) => job.expected <= seen.version
    case AskProvider(seen, _) => job.expected <= seen.version
    case SwapResolved(seen, _, _) => job.expected <= seen.version
    case _ => true
  }

  /** The mandate waits for the operation that swapped it to write its attempt or receipt. */
  ghost predicate Unfinished(v: View) {
    Version(v) == 4 && (Att(v, OutcomeAmbiguous, false) || Att(v, OutcomeAmbiguous, true)
                        || (Has(v, 4, Abandoned) && !v.closed))
  }

  ghost predicate ResolveEffect(v: View, job: ResolveJob, pc: ResolvePc, v': View, next: ResolvePc) {
    && ShapeOk(v') && ResolveFits(v', job, next)
    && (Settled(next) && !Settled(pc) ==> Version(v) == 3)
    && (Unfinished(v') ==> Closing(next) || (v' == v && !Closing(pc)))
    && (v' == v || (Has(v, 3, Quarantined) && Version(v') == 4)
        || (Closing(pc) && Version(v) == 4 && v'.mandate == v.mandate))
  }

  lemma ResolveStep(v: View, job: ResolveJob, pc: ResolvePc, v': View, reply: Reply)
    requires PoliteResolve(job, pc) && ShapeOk(v) && ResolveFits(v, job, pc)
    requires v.attempt.Some? ==> v.attempt.value.id == AttemptId(job.mandate)
    requires ViewPerforms(v, job.mandate, ResolveAwaits(job, pc), v', reply)
    ensures ResolveEffect(v, job, pc, v', ResolveResume(job, pc, reply))
  {
  }

  // ----- The operations that only look on

  /** Any change one move makes to a view; `held` and `closing` say who made it. */
  ghost predicate Changes(v: View, v': View, held: bool, closing: bool) {
    || v' == v
    || (Version(v) == 0 && Version(v') == 1)
    || (Version(v) == 1 && Version(v') == 2)
    || (held && Has(v, 2, Reserved) && Version(v') in {2, 3})
    || (Has(v, 3, Quarantined) && Version(v') == 4)
    || (closing && Version(v) == 4 && v'.mandate == v.mandate)
  }

  // A dispatch other than the one that holds the reservation keeps its footing.
  lemma BystandingDispatch(v: View, v': View, held: bool, closing: bool, pc: DispatchPc)
    requires DispatchFits(v, pc) && Changes(v, v', held, closing) && (held ==> !Won(pc))
    ensures DispatchFits(v', pc)
  {
  }

  // So does a resolution other than the one that swapped the mandate.
  lemma BystandingResolve(v: View, v': View, held: bool, closing: bool, job: ResolveJob, pc: ResolvePc)
    requires ShapeOk(v) && ShapeOk(v')
    requires ResolveFits(v, job, pc) && Changes(v, v', held, closing) && (closing ==> !Settled(pc))
    ensures ResolveFits(v', job, pc)
  {
  }
}
