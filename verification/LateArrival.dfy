/**
 The feed's numbers are not stable in every run: a webhook reads the clock, waits while a later one is received
 completely, and then stores the older receipt.
 */
module LateArrival {
  import opened Text
  import opened Records
  import opened Stores
  import opened DeliverProgram
  import opened Machine
  import opened Growth
  import opened NoLookahead
  import opened Runs
  import opened Scenarios
  import opened Feed
  import opened FeedPaging
  import opened FeedPermanence
  import opened FeedRuns

  const SLOW := DeliverJob("slow", Event(7, "success", None, None, 0, "slow"), 5)
  const QUICK := DeliverJob("quick", Event(8, "success", None, None, 0, "quick"), 10)

  function AttemptOf(mandate: string, d: int): Attempt { AcceptedAttempt(Job(mandate, 1), d) }

  /** Operations that cannot look ahead: dispatches that expect 1, decisions that expect 1, proposals and webhooks. */
  predicate Cautious(op: Op) {
    match op
    case DispatchOp(job, _) => job.expected == 1
    case ResolveOp(_, _) => false
    case DecideOp(job, _) => job.expected == 1
    case _ => true
  }

  predicate AllCautious(ops: seq<Op>) {
    forall i :: 0 <= i < |ops| ==> Cautious(ops[i])
  }

  lemma CautionStays(lib: Library, w: World, step: Step)
    requires AllCautious(Apply(lib, w, step).ops)
    ensures AllCautious(w.ops)
  {
    hide Perform, Awaits, Apply;
    var v := Apply(lib, w, step);
    StepGrows(lib, w, step);
    forall i | 0 <= i < |w.ops| ensures Cautious(w.ops[i]) {
      assert Cautious(v.ops[i]);
      StepOp(lib, w, step, i);
    }
  }

  /** Request versions start at 1, so a decision has seen at least 1 when it swaps. */
  ghost predicate PositiveSeen(s: Stores, op: Op) {
    op.DecideOp? && op.apc.SwapStatus? ==> 1 <= op.apc.seen
  }

  ghost predicate Positive(w: World) {
    && (forall r :: r in w.s.requests ==> 1 <= w.s.requests[r].version)
    && forall i :: 0 <= i < |w.ops| ==> PositiveSeen(w.s, w.ops[i])
  }

  lemma PositiveMove(lib: Library, s: Stores, op: Op, c: Choice)
    requires (forall r :: r in s.requests ==> 1 <= s.requests[r].version) && PositiveSeen(s, op)
    ensures var (t, reply) := Perform(s, Awaits(lib, op), c);
      (forall r :: r in t.requests ==> 1 <= t.requests[r].version) && PositiveSeen(t, Resume(lib, op, reply))
  {
    var a := Awaits(lib, op);
    RequestsPositive(s, a, c);
    if op.DecideOp? && op.apc.ReadRequest? {
      assert a == GetRequest(op.decide.request);
    }
  }

  lemma RequestsPositive(s: Stores, a: Await, c: Choice)
    requires (forall r :: r in s.requests ==> 1 <= s.requests[r].version) && (a.PutRequest? ==> a.request.version == 1)
    ensures forall r :: r in Perform(s, a, c).0.requests ==> 1 <= Perform(s, a, c).0.requests[r].version
  {
  }

  lemma StepPositive(lib: Library, w: World, step: Step)
    requires Positive(w)
    ensures Positive(Apply(lib, w, step))
  {
    hide Perform, Awaits, Resume;
    if step.Move? && step.who < |w.ops| {
      PositiveMove(lib, w.s, w.ops[step.who], step.choice);
    }
  }

  lemma {:induction false} AlwaysPositive(lib: Library, steps: seq<Step>)
    ensures Positive(Reach(lib, steps))
  {
    hide Apply;
    if steps != [] {
      AlwaysPositive(lib, steps[..|steps| - 1]);
      StepPositive(lib, Reach(lib, steps[..|steps| - 1]), steps[|steps| - 1]);
    }
  }

  /** A run all of whose operations are cautious is a run without lookahead. */
  lemma {:induction false} CautiousIsPolite(lib: Library, steps: seq<Step>)
    requires AllCautious(Reach(lib, steps).ops)
    ensures PoliteRun(lib, steps)
  {
    hide Apply;
    AlwaysPositive(lib, steps);
    CautiousWorldIsPolite(Reach(lib, steps));
    if steps != [] {
      var before := steps[..|steps| - 1];
      CautionStays(lib, Reach(lib, before), steps[|steps| - 1]);
      CautiousIsPolite(lib, before);
    }
    forall k | 0 <= k <= |steps| ensures PoliteWorld(Reach(lib, steps[..k])) {
      if k < |steps| {
        assert steps[..|steps| - 1][..k] == steps[..k];
      } else {
        assert steps[..k] == steps;
      }
    }
  }

  lemma CautiousWorldIsPolite(w: World)
    requires AllCautious(w.ops) && Positive(w)
    ensures PoliteWorld(w)
  {
    forall i | 0 <= i < |w.ops| ensures Polite(w.ops[i]) {
      assert Cautious(w.ops[i]) && PositiveSeen(w.s, w.ops[i]);
    }
  }

  /** Two accepted dispatches and nothing received yet. */
  predicate BothDispatched(w: World) {
    && |w.ops| == 4 && AllCautious(w.ops)
    && w.s.attempts == map[AttemptId("m") := AttemptOf("m", 7), AttemptId("n") := AttemptOf("n", 8)]
    && w.s.receipts == map[] && w.s.nodes == map[] && w.s.deliveries == map[]
  }

  lemma DispatchBoth(lib: Library) returns (steps: seq<Step>)
    ensures BothDispatched(Reach(lib, steps))
  {
    hide Leads, Reach;
    AttemptIdInjective("m", "n");
    steps := ApprovedRun(lib);
    steps := AlsoIssue(lib, steps, "n");
    steps := Dispatches(lib, steps, Job("m", 1), 7);
    steps := Dispatches(lib, steps, Job("n", 1), 8);
  }

  /** The slow webhook has found its attempt; its clock reading is 5. */
  lemma SlowStarts(lib: Library, steps: seq<Step>) returns (longer: seq<Step>)
    requires BothDispatched(Reach(lib, steps))
    ensures var w := Reach(lib, longer);
      && |w.ops| == 5 && AllCautious(w.ops)
      && w.ops[4] == DeliverOp(SLOW, InsertObservation(AttemptOf("m", 7), []))
      && w.s.attempts == map[AttemptId("m") := AttemptOf("m", 7), AttemptId("n") := AttemptOf("n", 8)]
      && w.s.receipts == map[] && w.s.nodes == map[] && w.s.deliveries.Keys == {"slow"}
  {
    hide Leads, Reach, MapOutcome;
    FinalStatusHasOutcome("success");
    NotBlankDeliveries();
    AttemptIdInjective("m", "n");
    var s := Reach(lib, steps).s;
    longer := Begin(lib, steps, DeliverOp(SLOW, LookUpDelivery));
    var s1 := Ingests(lib, s, SLOW);
    longer := Continue(lib, longer, 4, s1, DeliverOp(SLOW, LookUpAttempt), None);
    Finds(lib, s1, SLOW, AttemptOf("m", 7));
    longer := Continue(lib, longer, 4, s1, DeliverOp(SLOW, InsertObservation(AttemptOf("m", 7), [])), None);
  }

  lemma NotBlankDeliveries()
    ensures !IsBlank("slow") && !IsBlank("quick")
  {
    assert "slow"[0] in "slow" && "quick"[0] in "quick";
  }

  function Observed(lib: Library, job: DeliverJob, a: Attempt): Node { ObservationNode(lib, a, job.event, job.now) }
  function Claimed(lib: Library, job: DeliverJob, a: Attempt): Node { ClaimNode(lib, a, Succeeded, job.now) }

  function QuickNodes(lib: Library, a: Attempt): map<string, Node> {
    map[Observed(lib, QUICK, a).id := Observed(lib, QUICK, a)][Claimed(lib, QUICK, a).id := Claimed(lib, QUICK, a)]
  }

  /** The quick one is received from beginning to end; its clock reading is 10. */
  lemma QuickRuns(lib: Library, steps: seq<Step>) returns (longer: seq<Step>)
    requires KeepsApart(lib) && |Reach(lib, steps).ops| == 5 && AllCautious(Reach(lib, steps).ops)
    requires var s := Reach(lib, steps).s;
      && s.attempts == map[AttemptId("m") := AttemptOf("m", 7), AttemptId("n") := AttemptOf("n", 8)]
      && s.receipts == map[] && s.nodes == map[] && s.deliveries.Keys == {"slow"}
    ensures var w, a := Reach(lib, longer), AttemptOf("n", 8);
      && steps <= longer && |w.ops| == 6 && AllCautious(w.ops) && w.ops[4] == Reach(lib, steps).ops[4]
      && w.s.receipts == map[ReceiptId(a.id) := WebhookReceipt(lib, QUICK, a, [])]
      && w.s.nodes == QuickNodes(lib, a)
  {
    hide Leads, Reach, MapOutcome, WebhookReceipt, ObservationNode, ClaimNode, KeepsApart;
    FinalStatusHasOutcome("success");
    NotBlankDeliveries();
    AttemptIdInjective("m", "n");
    var a := AttemptOf("n", 8);
    longer := Begin(lib, steps, DeliverOp(QUICK, LookUpDelivery));
    var s1 := Ingests(lib, Reach(lib, steps).s, QUICK);
    longer := Continue(lib, longer, 5, s1, DeliverOp(QUICK, LookUpAttempt), None);
    ObservationIsNotClaim(lib, a, QUICK.event, 10, a, 10);
    var s2 := Receives(lib, s1, QUICK, a, Observed(lib, QUICK, a), Claimed(lib, QUICK, a));
    longer := Continue(lib, longer, 5, s2, DeliverOp(QUICK, AuditReceipt(a)), None);
  }

  /** Then the slow one goes on. */
  lemma SlowEnds(lib: Library, steps: seq<Step>) returns (longer: seq<Step>)
    requires KeepsApart(lib) && |Reach(lib, steps).ops| == 6 && AllCautious(Reach(lib, steps).ops)
    requires var w, a, b := Reach(lib, steps), AttemptOf("m", 7), AttemptOf("n", 8);
      && w.ops[4] == DeliverOp(SLOW, InsertObservation(a, []))
      && w.s.receipts == map[ReceiptId(b.id) := WebhookReceipt(lib, QUICK, b, [])]
      && w.s.nodes == QuickNodes(lib, b)
    ensures var a, b := AttemptOf("m", 7), AttemptOf("n", 8);
      && steps <= longer && AllCautious(Reach(lib, longer).ops)
      && Reach(lib, longer).s.receipts == map[ReceiptId(b.id) := WebhookReceipt(lib, QUICK, b, []),
                                              ReceiptId(a.id) := WebhookReceipt(lib, SLOW, a, [])]
  {
    hide Leads, Reach, MapOutcome, WebhookReceipt, ObservationNode, ClaimNode, KeepsApart;
    FinalStatusHasOutcome("success");
    var a, b := AttemptOf("m", 7), AttemptOf("n", 8);
    AttemptIdInjective("m", "n");
    ReceiptIdInjective(a.id, b.id);
    ObservationIsNotClaim(lib, a, SLOW.event, 5, a, 5);
    ObservationIsNotClaim(lib, a, SLOW.event, 5, b, 10);
    ObservationIsNotClaim(lib, b, QUICK.event, 10, a, 5);
    NodesOfOthers(lib, a, SLOW.event, 5, b, QUICK.event, 10);
    var s, op := Reach(lib, steps).s, DeliverOp(SLOW, InsertObservation(a, []));
    Standing(lib, s, op, None);
    var s1 := StoresEvidence(lib, s, op, s, SLOW, a, Observed(lib, SLOW, a), Claimed(lib, SLOW, a));
    var s2 := StoresReceipt(lib, s, op, s1, SLOW, a);
    longer := Continue(lib, steps, 4, s2, DeliverOp(SLOW, AuditReceipt(a)), None);
  }

  // ----- The two feeds

  const FIRST := Listed(ReceiptId(AttemptId("m")), 5)
  const SECOND := Listed(ReceiptId(AttemptId("n")), 10)

  lemma OneExported(receipts: map<string, Receipt>, nodes: map<string, Node>, x: Listed)
    requires Exportable(receipts, nodes, x.id)
    ensures |Exports(receipts, nodes, [x])| == 1
    ensures Exports(receipts, nodes, [x])[0].id == x.id && Exports(receipts, nodes, [x])[0].sequence == 1
  {
    hide Exportable, ManifestOf;
    ExportsSnoc(receipts, nodes, [x], 0);
    assert [x][..0] == [] && [x][..1] == [x];
    ExportableHasManifest(receipts, nodes, x.id);
  }

  lemma TwoExported(receipts: map<string, Receipt>, nodes: map<string, Node>, x: Listed, y: Listed)
    requires Exportable(receipts, nodes, x.id) && Exportable(receipts, nodes, y.id)
    ensures |Exports(receipts, nodes, [x, y])| == 2
    ensures Exports(receipts, nodes, [x, y])[0].id == x.id && Exports(receipts, nodes, [x, y])[0].sequence == 1
    ensures Exports(receipts, nodes, [x, y])[1].id == y.id && Exports(receipts, nodes, [x, y])[1].sequence == 2
  {
    hide Exportable, ManifestOf;
    OneExported(receipts, nodes, x);
    ExportsSnoc(receipts, nodes, [x, y], 1);
    assert [x, y][..1] == [x] && [x, y][..2] == [x, y];
    ExportableHasManifest(receipts, nodes, y.id);
  }

  lemma StoredIsExportable(lib: Library, steps: seq<Step>, k: string)
    requires k in Reach(lib, steps).s.receipts && Reach(lib, steps).s.receipts[k].outcome != Unknown
    ensures Exportable(Reach(lib, steps).s.receipts, Reach(lib, steps).s.nodes, k)
  {
    hide Reach, Exportable;
    assert steps[..|steps|] == steps;
    ManifestIsPermanent(lib, steps, |steps|, k);
    ExportableHasManifest(Reach(lib, steps).s.receipts, Reach(lib, steps).s.nodes, k);
  }

  lemma TheLists(lib: Library, old': map<string, Receipt>, new': map<string, Receipt>)
    requires var a, b := AttemptOf("m", 7), AttemptOf("n", 8);
      && old' == map[ReceiptId(b.id) := WebhookReceipt(lib, QUICK, b, [])]
      && new' == map[ReceiptId(b.id) := WebhookReceipt(lib, QUICK, b, []),
                     ReceiptId(a.id) := WebhookReceipt(lib, SLOW, a, [])]
    ensures Lists(old', [SECOND]) && Lists(new', [FIRST, SECOND]) && FIRST.id != SECOND.id
    ensures FIRST.id in new' && SECOND.id in new' && SECOND.id in old'
    ensures new'[FIRST.id].outcome != Unknown && new'[SECOND.id].outcome != Unknown
      && old'[SECOND.id].outcome != Unknown
  {
    hide MapOutcome;
    FinalStatusHasOutcome("success");
    AttemptIdInjective("m", "n");
    ReceiptIdInjective(AttemptId("m"), AttemptId("n"));
    assert [FIRST, SECOND][0] == FIRST && [FIRST, SECOND][1] == SECOND && [SECOND][0] == SECOND;
  }

  /**
   A run without any lookahead, and two pulls: the receipt that was export 1 at the first pull is export 2 at the
   second, because a receipt with an earlier time was stored in between.
   */
  lemma LateArrivalRenumbers(lib: Library) returns (steps: seq<Step>, n: nat)
    requires KeepsApart(lib)
    ensures n <= |steps| && PoliteRun(lib, steps)
    ensures Lists(Reach(lib, steps[..n]).s.receipts, [SECOND]) && Lists(Reach(lib, steps).s.receipts, [FIRST, SECOND])
    ensures var s, t := Reach(lib, steps[..n]).s, Reach(lib, steps).s;
      var e, f := Exports(s.receipts, s.nodes, [SECOND]), Exports(t.receipts, t.nodes, [FIRST, SECOND]);
      && |e| == 1 && e[0].id == SECOND.id && e[0].sequence == 1
      && |f| == 2 && f[1].id == SECOND.id && f[1].sequence == 2 && f[0].id == FIRST.id != SECOND.id
      && !(e <= f)
  {
    hide Reach, Exports, Exportable, Lists, WebhookReceipt, BothDispatched, PoliteRun, AllCautious;
    var dispatched := DispatchBoth(lib);
    var started := SlowStarts(lib, dispatched);
    var early := QuickRuns(lib, started);
    steps := SlowEnds(lib, early);
    n := |early|;
    assert steps[..n] == early;
    CautiousIsPolite(lib, steps);
    var s, t := Reach(lib, early).s, Reach(lib, steps).s;
    TheLists(lib, s.receipts, t.receipts);
    StoredIsExportable(lib, early, SECOND.id);
    StoredIsExportable(lib, steps, FIRST.id);
    StoredIsExportable(lib, steps, SECOND.id);
    OneExported(s.receipts, s.nodes, SECOND);
    TwoExported(t.receipts, t.nodes, FIRST, SECOND);
    assert Exports(s.receipts, s.nodes, [SECOND])[0].id != Exports(t.receipts, t.nodes, [FIRST, SECOND])[0].id;
  }

  /**
   A client that pulls at these two moments receives the one receipt twice, under the numbers 1 and 2, and the other
   never: its cursor has passed it.
   */
  lemma ClientMissesLateArrival(lib: Library, limit: nat) returns (steps: seq<Step>, visits: seq<Visit>)
    requires KeepsApart(lib) && InRange(limit)
    ensures PoliteRun(lib, steps) && Visits(lib, steps, visits) && |visits| == 2
    ensures var (got, cursor) := Received(PullsOf(lib, steps, visits));
      && |got| == cursor == 2 && got[0].id == got[1].id == SECOND.id && got[0].sequence == 1 && got[1].sequence == 2
    ensures var feed := FeedAt(lib, steps, visits[1]);
      |feed| == 2 && feed[0].id == FIRST.id != SECOND.id && Received(PullsOf(lib, steps, visits)).1 == |feed|
  {
    hide Reach, Exports, Lists, PoliteRun, KeepsApart;
    var n;
    steps, n := LateArrivalRenumbers(lib);
    visits := [Visit(n, [SECOND], limit), Visit(|steps|, [FIRST, SECOND], limit)];
    assert steps[..|steps|] == steps;
    var pulls := PullsOf(lib, steps, visits);
    FeedIsNumbered(lib, steps, visits[0]);
    FeedIsNumbered(lib, steps, visits[1]);
    TwoPulls(pulls);
  }

  lemma TwoPulls(pulls: seq<Pull>)
    requires |pulls| == 2 && |pulls[0].feed| == 1 && |pulls[1].feed| == 2
    requires Numbered(pulls[0].feed) && Numbered(pulls[1].feed)
    requires InRange(pulls[0].limit) && InRange(pulls[1].limit)
    ensures Received(pulls) == ([pulls[0].feed[0], pulls[1].feed[1]], 2)
  {
    hide Received;
    assert pulls[..1][..0] == [] && LatestFeed(pulls[..1]) == pulls[0].feed;
    NothingReceived();
    OnePull(pulls[..1]);
    assert [] + pulls[0].feed[0..1] == [pulls[0].feed[0]];
    assert Received(pulls[..1]) == ([pulls[0].feed[0]], 1);
    OnePull(pulls);
    assert [pulls[0].feed[0]] + pulls[1].feed[1..2] == [pulls[0].feed[0], pulls[1].feed[1]];
  }

  lemma NothingReceived()
    ensures Received([]) == ([], 0)
  {
  }
}
