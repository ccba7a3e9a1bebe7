/**
 What every run keeps, whatever versions the callers pass: the stores only grow, and a record that
 is still at the version somebody read is still the record that was read.
 */
module Growth {
  import opened Records
  import opened Stores
  import opened Machine

  ghost predicate Extends<V(!new)>(a: map<string, V>, b: map<string, V>) {
    forall k :: k in a ==> k in b && b[k] == a[k]
  }

  ghost predicate Newer(a: Mandate, b: Mandate) {
    a.version <= b.version && (a.version == b.version ==> a == b)
  }

  ghost predicate MandatesGrow(a: map<string, Mandate>, b: map<string, Mandate>) {
    forall k :: k in a ==> k in b && Newer(a[k], b[k])
  }

  /** Only status and version of a request ever change. */
  ghost predicate NewerRequest(a: Request, b: Request) {
    && a.version <= b.version && (a.version == b.version ==> a == b)
    && b == a.(status := b.status, version := b.version)
  }

  ghost predicate RequestsGrow(a: map<string, Request>, b: map<string, Request>) {
    forall k :: k in a ==> k in b && NewerRequest(a[k], b[k])
  }

  /** Only state and deployment of an attempt ever change, and a stored deployment id is never cleared. */
  ghost predicate NewerAttempt(a: Attempt, b: Attempt) {
    && b == a.(state := b.state, deployment := b.deployment)
    && (a.deployment.Some? ==> b.deployment.Some?)
  }

  ghost predicate AttemptsGrow(a: map<string, Attempt>, b: map<string, Attempt>) {
    forall k :: k in a ==> k in b && NewerAttempt(a[k], b[k])
  }

  ghost predicate LatestGrows(a: map<int, int>, b: map<int, int>) {
    forall k :: k in a ==> k in b && a[k] <= b[k]
  }

  ghost predicate Grows(s: Stores, t: Stores) {
    && s.audit <= t.audit
    && s.provider <= t.provider
    && Extends(s.decisions, t.decisions)
    && Extends(s.receipts, t.receipts)
    && Extends(s.nodes, t.nodes)
    && Extends(s.deliveries, t.deliveries)
    && MandatesGrow(s.mandates, t.mandates)
    && RequestsGrow(s.requests, t.requests)
    && AttemptsGrow(s.attempts, t.attempts)
    && LatestGrows(s.latest, t.latest)
  }

  lemma ExtendsTransitive<V(!new)>(a: map<string, V>, b: map<string, V>, c: map<string, V>)
    requires Extends(a, b) && Extends(b, c)
    ensures Extends(a, c)
  {
  }

  lemma VersionedTransitive(r: Stores, s: Stores, t: Stores)
    requires MandatesGrow(r.mandates, s.mandates) && MandatesGrow(s.mandates, t.mandates)
    requires RequestsGrow(r.requests, s.requests) && RequestsGrow(s.requests, t.requests)
    requires LatestGrows(r.latest, s.latest) && LatestGrows(s.latest, t.latest)
    ensures MandatesGrow(r.mandates, t.mandates)
    ensures RequestsGrow(r.requests, t.requests)
    ensures LatestGrows(r.latest, t.latest)
  {
  }

  lemma AttemptsGrowTransitive(a: map<string, Attempt>, b: map<string, Attempt>, c: map<string, Attempt>)
    requires AttemptsGrow(a, b) && AttemptsGrow(b, c)
    ensures AttemptsGrow(a, c)
  {
    forall k | k in a ensures k in c && NewerAttempt(a[k], c[k]) {
      assert k in b && NewerAttempt(a[k], b[k]) && NewerAttempt(b[k], c[k]);
    }
  }

  lemma GrowsTransitive(r: Stores, s: Stores, t: Stores)
    requires Grows(r, s) && Grows(s, t)
    ensures Grows(r, t)
  {
    ExtendsTransitive(r.decisions, s.decisions, t.decisions);
    ExtendsTransitive(r.receipts, s.receipts, t.receipts);
    ExtendsTransitive(r.nodes, s.nodes, t.nodes);
    ExtendsTransitive(r.deliveries, s.deliveries, t.deliveries);
    VersionedTransitive(r, s, t);
    AttemptsGrowTransitive(r.attempts, s.attempts, t.attempts);
  }

  lemma GrowsReflexive(s: Stores)
    ensures Grows(s, s)
  {
  }

  lemma AttemptsOnlyGrow(m: map<string, Attempt>, id: string, a: Attempt, state: AttemptState, d: int)
    ensures AttemptsGrow(m, InsertOnce(m, id, a).0)
    ensures AttemptsGrow(m, SetState(m, id, state).0)
    ensures AttemptsGrow(m, SetDeployment(m, id, d).0)
  {
  }

  // One awaited call only adds, or replaces a versioned record by a newer one.
  lemma PerformGrows(s: Stores, a: Await, c: Choice)
    ensures Grows(s, Perform(s, a, c).0)
  {
    hide IsAmbiguousOf, HasAmbiguous, HoldsDeployment, DeploymentKnown, AttemptsGrow, SetState, SetDeployment;
    GrowsReflexive(s);
    match a
    case PutAttempt(x) => AttemptsOnlyGrow(s.attempts, x.id, x, Prepared, 0);
    case SetAttemptState(id, to) => AttemptsOnlyGrow(s.attempts, id, NOBODY, to, 0);
    case SetAttemptDeployment(id, d) => AttemptsOnlyGrow(s.attempts, id, NOBODY, Prepared, d);
    case _ =>
  }

  const NOBODY := Attempt("", "", "", "", "", "", 0, Prepared, None)

  lemma StepGrows(lib: Library, w: World, step: Step)
    ensures Grows(w.s, Apply(lib, w, step).s)
    ensures |w.ops| <= |Apply(lib, w, step).ops|
  {
    if step.Move? && step.who < |w.ops| {
      PerformGrows(w.s, Awaits(lib, w.ops[step.who]), step.choice);
    }
  }

  /** Along every run, from any earlier moment to any later one, the stores only grow. */
  lemma {:induction false} RunGrows(lib: Library, steps: seq<Step>, k: nat)
    requires k <= |steps|
    ensures Grows(Reach(lib, steps[..k]).s, Reach(lib, steps).s)
    ensures |Reach(lib, steps[..k]).ops| <= |Reach(lib, steps).ops|
  {
    if k == |steps| {
      assert steps[..k] == steps;
    } else {
      var before := steps[..|steps| - 1];
      assert before[..k] == steps[..k];
      RunGrows(lib, before, k);
      StepGrows(lib, Reach(lib, before), steps[|steps| - 1]);
      GrowsTransitive(Reach(lib, steps[..k]).s, Reach(lib, before).s, Reach(lib, steps).s);
    }
  }

  /** The same between two moments of one run. */
  lemma RunGrowsBetween(lib: Library, steps: seq<Step>, j: nat, k: nat)
    requires j <= k <= |steps|
    ensures Grows(Reach(lib, steps[..j]).s, Reach(lib, steps[..k]).s)
  {
    assert steps[..k][..j] == steps[..j];
    RunGrows(lib, steps[..k], j);
  }

  /** Step k of the run swaps mandate m away from version v. */
  ghost predicate SwapsAway(lib: Library, steps: seq<Step>, k: nat, m: string, v: int)
    requires k < |steps|
  {
    var s, t := Reach(lib, steps[..k]).s.mandates, Reach(lib, steps[..k + 1]).s.mandates;
    m in s && s[m].version == v && m in t && t[m].version != v
  }

  /** Each version of a mandate has at most one swap that leaves it, over the whole run. */
  lemma OneWinnerPerVersion(lib: Library, steps: seq<Step>, j: nat, k: nat, m: string, v: int)
    requires j < |steps| && k < |steps|
    requires SwapsAway(lib, steps, j, m, v) && SwapsAway(lib, steps, k, m, v)
    ensures j == k
  {
    if j < k {
      NoReturn(lib, steps, j, k, m, v);
    } else if k < j {
      NoReturn(lib, steps, k, j, m, v);
    }
  }

  lemma NoReturn(lib: Library, steps: seq<Step>, j: nat, k: nat, m: string, v: int)
    requires j < k < |steps| && SwapsAway(lib, steps, j, m, v)
    ensures m in Reach(lib, steps[..k]).s.mandates && v < Reach(lib, steps[..k]).s.mandates[m].version
  {
    RunGrowsBetween(lib, steps, j, j + 1);
    RunGrowsBetween(lib, steps, j + 1, k);
  }

  // ----- When a mandate's record stays

  /** Step k lets an operation suspended on a swap of m with m's stored version make its move. */
  ghost predicate SwapsStored(lib: Library, steps: seq<Step>, k: nat, m: string)
    requires k < |steps|
  {
    var w := Reach(lib, steps[..k]);
    steps[k].Move? && steps[k].who < |w.ops| && SwapHits(w.s, Awaits(lib, w.ops[steps[k].who]), m)
  }

  predicate SwapHits(s: Stores, a: Await, m: string) {
    a.SwapMandate? && a.id == m && m in s.mandates && a.expected == s.mandates[m].version
  }

  lemma PerformSpares(s: Stores, a: Await, c: Choice, m: string)
    requires m in s.mandates
    ensures m in Perform(s, a, c).0.mandates
    ensures Perform(s, a, c).0.mandates[m] == s.mandates[m] <==> !SwapHits(s, a, m)
  {
  }

  lemma StepSpares(lib: Library, steps: seq<Step>, k: nat, m: string)
    requires k < |steps| && m in Reach(lib, steps[..k]).s.mandates
    ensures m in Reach(lib, steps[..k + 1]).s.mandates
    ensures Reach(lib, steps[..k + 1]).s.mandates[m] == Reach(lib, steps[..k]).s.mandates[m]
      <==> !SwapsStored(lib, steps, k, m)
  {
    hide Reach, Perform, Awaits, Resume, SwapHits;
    assert steps[..k + 1] == steps[..k] + [steps[k]];
    ReachSnoc(lib, steps[..k], steps[k]);
    var w := Reach(lib, steps[..k]);
    if steps[k].Move? && steps[k].who < |w.ops| {
      PerformSpares(w.s, Awaits(lib, w.ops[steps[k].who]), steps[k].choice, m);
    }
  }

  /**
   In any run, with any versions: m's record at moment k is still m's record at the end exactly when no later
   step swaps m with the version it has then. The state of the record, final or not, does not protect it.
   */
  lemma {:induction false} RecordStaysIffNotSwapped(lib: Library, steps: seq<Step>, k: nat, m: string)
    requires k <= |steps| && m in Reach(lib, steps[..k]).s.mandates
    ensures m in Reach(lib, steps).s.mandates
    ensures Reach(lib, steps).s.mandates[m] == Reach(lib, steps[..k]).s.mandates[m]
      <==> forall j :: k <= j < |steps| ==> !SwapsStored(lib, steps, j, m)
  {
    hide Apply, SwapsStored;
    if k == |steps| {
      assert steps[..k] == steps;
    } else {
      var n := |steps| - 1;
      var before := steps[..n];
      assert before[..k] == steps[..k] && steps[..n + 1] == steps;
      RecordStaysIffNotSwapped(lib, before, k, m);
      forall j | 0 <= j < n ensures SwapsStored(lib, before, j, m) == SwapsStored(lib, steps, j, m) {
        SameStep(lib, steps, j, m);
      }
      StepSpares(lib, steps, n, m);
      RunGrows(lib, before, k);
      StepGrows(lib, Reach(lib, before), steps[n]);
      ChangeIsForever(lib, steps, k, n, m);
    }
  }

  lemma SameStep(lib: Library, steps: seq<Step>, j: nat, m: string)
    requires j < |steps| - 1
    ensures SwapsStored(lib, steps[..|steps| - 1], j, m) == SwapsStored(lib, steps, j, m)
  {
    hide Awaits;
    assert steps[..|steps| - 1][..j] == steps[..j];
  }

  // A record that changed is newer, and never changes back.
  lemma ChangeIsForever(lib: Library, steps: seq<Step>, k: nat, n: nat, m: string)
    requires k <= n <= |steps| && m in Reach(lib, steps[..k]).s.mandates
    ensures m in Reach(lib, steps[..n]).s.mandates && m in Reach(lib, steps).s.mandates
    ensures Reach(lib, steps).s.mandates[m] == Reach(lib, steps[..k]).s.mandates[m]
      ==> Reach(lib, steps[..n]).s.mandates[m] == Reach(lib, steps[..k]).s.mandates[m]
  {
    hide Reach;
    RunGrowsBetween(lib, steps, k, n);
    RunGrows(lib, steps, n);
  }
}
