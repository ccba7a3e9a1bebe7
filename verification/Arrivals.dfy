/** The order of provider times over whole runs: which arrivals the tracker saw, and what it said of each. */
module Arrivals {
  import opened Records
  import opened Stores
  import opened MemoryStores
  import opened DeliverProgram
  import opened Machine
  import opened Growth
  import opened AuditTrail

  /** The arrival the step brings to the tracker, if any. */
  function ArrivalOf(w: World, step: Step): seq<Arrival> {
    if step.Move? && step.who < |w.ops| && w.ops[step.who].DeliverOp? && w.ops[step.who].wpc.TrackOrder?
    then var event := w.ops[step.who].deliver.event; [Arrival(event.deployment, event.updatedAt)]
    else []
  }

  /** Every arrival of the run, in order. */
  function ArrivalsOf(lib: Library, steps: seq<Step>): seq<Arrival> {
    if steps == [] then []
    else
      var before := steps[..|steps| - 1];
      ArrivalsOf(lib, before) + ArrivalOf(Reach(lib, before), steps[|steps| - 1])
  }

  lemma MoveTracks(lib: Library, s: Stores, op: Op, c: Choice)
    ensures var t := Perform(s, Awaits(lib, op), c).0;
      if op.DeliverOp? && op.wpc.TrackOrder?
      then t.latest == Track(s.latest, op.deliver.event.deployment, op.deliver.event.updatedAt).0
      else t.latest == s.latest
  {
    hide ObservationNode, ClaimNode, GapNode, WebhookReceipt;
    OnlyTrackingTracks(s, Awaits(lib, op), c);
  }

  lemma OnlyTrackingTracks(s: Stores, a: Await, c: Choice)
    ensures var (t, reply) := Perform(s, a, c);
      if a.TrackTime? then (t.latest, reply) == (Track(s.latest, a.deployment, a.at).0,
                                                 Late(Track(s.latest, a.deployment, a.at).1))
      else t.latest == s.latest
  {
  }

  lemma FedSnoc(history: seq<Arrival>, x: Arrival)
    ensures Fed(history + [x]) == Track(Fed(history), x.deployment, x.at).0
  {
    assert (history + [x])[..|history|] == history;
  }

  /** The stored numbers are what all arrivals of the run leave. */
  lemma {:induction false} LatestIsFed(lib: Library, steps: seq<Step>)
    ensures Reach(lib, steps).s.latest == Fed(ArrivalsOf(lib, steps))
  {
    hide Perform, Awaits, Resume, Fed, Track;
    if steps == [] {
      NothingFed(lib);
    } else {
      var before, step := steps[..|steps| - 1], steps[|steps| - 1];
      var w := Reach(lib, before);
      LatestIsFed(lib, before);
      var history := ArrivalsOf(lib, before);
      assert history + [] == history;
      if step.Move? && step.who < |w.ops| {
        var op := w.ops[step.who];
        MoveTracks(lib, w.s, op, step.choice);
        if op.DeliverOp? && op.wpc.TrackOrder? {
          FedSnoc(history, Arrival(op.deliver.event.deployment, op.deliver.event.updatedAt));
        }
      }
    }
  }

  lemma NothingFed(lib: Library)
    ensures Reach(lib, []).s.latest == Fed([])
  {
  }

  /** Counters behind the tracker. */
  predicate Tracked(pc: DeliverPc) {
    Past(pc) && !pc.TrackOrder?
  }

  // What a move of a request makes of the flag.
  lemma FlagNext(lib: Library, s: Stores, job: DeliverJob, pc: DeliverPc, c: Choice)
    ensures var (t, reply) := Perform(s, DeliverAwaits(lib, job, pc), c);
      var next := DeliverResume(lib, job, pc, reply);
      && (Tracked(next) ==> Tracked(pc) || pc.TrackOrder?)
      && (next.AuditIngest? ==>
            (pc.AuditIngest? && pc.outOfOrder == next.outOfOrder)
            || (pc.TrackOrder?
                && next.outOfOrder == Track(s.latest, job.event.deployment, job.event.updatedAt).1))
      && (Tracked(next) && !next.AuditIngest? ==>
            (Tracked(pc) && !pc.AuditIngest?) || (pc.AuditIngest? && IngestionEvent(job, pc.outOfOrder) in t.audit))
  {
    hide Perform, Track, MapOutcome, IsFinalStatus, ObservationNode, ClaimNode, GapNode, WebhookReceipt;
    var a := DeliverAwaits(lib, job, pc);
    OnlyTrackingTracks(s, a, c);
    OnlyLogWritesLog(s, a, c);
    if a.Log? {
      assert (s.audit + [a.event])[|s.audit|] == a.event;
    }
  }

  /** Request i's own arrival is step k of the run. */
  ghost predicate ArrivesAt(lib: Library, steps: seq<Step>, k: nat, i: nat, job: DeliverJob) {
    && k < |steps| && steps[k].Move? && steps[k].who == i
    && i < |Reach(lib, steps[..k]).ops| && Reach(lib, steps[..k]).ops[i] == DeliverOp(job, TrackOrder)
  }

  /** What the arrivals before it say of request i's event. */
  ghost predicate CameLate(lib: Library, steps: seq<Step>, k: nat, job: DeliverJob)
    requires k <= |steps|
  {
    OutOfOrder(ArrivalsOf(lib, steps[..k]), job.event.deployment, job.event.updatedAt)
  }

  lemma ArrivalInPrefix(lib: Library, steps: seq<Step>, n: nat, k: nat, i: nat, job: DeliverJob)
    requires n <= |steps| && ArrivesAt(lib, steps[..n], k, i, job)
    ensures ArrivesAt(lib, steps, k, i, job) && CameLate(lib, steps, k, job) == CameLate(lib, steps[..n], k, job)
  {
    hide Reach, OutOfOrder;
    assert steps[..n][..k] == steps[..k];
  }

  /**
   In every run: a request that went past the tracker was flagged, and then logged as such, exactly if some arrival
   before its own, for the same deployment, carried a later provider time.
   */
  lemma {:induction false} ArrivalIsJudged(lib: Library, steps: seq<Step>, i: nat) returns (k: nat)
    requires i < |Reach(lib, steps).ops|
    requires Reach(lib, steps).ops[i].DeliverOp? && Tracked(Reach(lib, steps).ops[i].wpc)
    ensures var w := Reach(lib, steps);
      var job, pc := w.ops[i].deliver, w.ops[i].wpc;
      && ArrivesAt(lib, steps, k, i, job)
      && (pc.AuditIngest? ==> (pc.outOfOrder <==> CameLate(lib, steps, k, job)))
      && (!pc.AuditIngest? ==> IngestionEvent(job, CameLate(lib, steps, k, job)) in w.s.audit)
  {
    hide Perform, DeliverAwaits, DeliverResume, Track, CameLate, Apply, AtStart;
    var n := |steps| - 1;
    var w, step := Reach(lib, steps[..n]), steps[n];
    StepOp(lib, w, step, i);
    StartsUntracked(Reach(lib, steps).ops[i]);
    var op := w.ops[i];
    if step.Move? && step.who == i {
      FlagNext(lib, w.s, op.deliver, op.wpc, step.choice);
    }
    if Tracked(op.wpc) {
      k := ArrivalIsJudged(lib, steps[..n], i);
      ArrivalInPrefix(lib, steps, n, k, i, op.deliver);
      if !op.wpc.AuditIngest? {
        StepGrows(lib, w, step);
        LogStays(w.s, Reach(lib, steps).s, IngestionEvent(op.deliver, CameLate(lib, steps, k, op.deliver)));
      }
    } else {
      k := n;
      TrackerAnswers(lib, steps[..n], op.deliver);
      JudgedHere(lib, steps, n, op.deliver);
    }
  }

  lemma StartsUntracked(op: Op)
    ensures AtStart(op) && op.DeliverOp? ==> !Tracked(op.wpc)
  {
  }

  lemma TrackerAnswers(lib: Library, steps: seq<Step>, job: DeliverJob)
    ensures Track(Reach(lib, steps).s.latest, job.event.deployment, job.event.updatedAt).1
      <==> OutOfOrder(ArrivalsOf(lib, steps), job.event.deployment, job.event.updatedAt)
  {
    hide Reach, Track, OutOfOrder;
    LatestIsFed(lib, steps);
    TrackerKnowsHistory(ArrivalsOf(lib, steps), job.event.deployment, job.event.updatedAt);
  }

  lemma JudgedHere(lib: Library, steps: seq<Step>, n: nat, job: DeliverJob)
    requires n <= |steps|
    ensures CameLate(lib, steps, n, job)
      <==> OutOfOrder(ArrivalsOf(lib, steps[..n]), job.event.deployment, job.event.updatedAt)
  {
  }
}
