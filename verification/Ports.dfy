/** The stores an application instance holds, and each awaited store call as a method on them. */
module Ports {
  import opened Records
  import opened Stores
  import opened MemoryStores

  /** What the provider was asked, in order. Its answers come from outside. */
  class Provider {
    var calls: seq<ProviderCall>

    constructor ()
      ensures calls == []
    {
      calls := [];
    }

    method Create(call: ProviderCall, answer: Option<int>) returns (deployment: Option<int>)
      modifies this
      ensures calls == old(calls) + [call] && deployment == answer
    {
      calls := calls + [call];
      deployment := answer;
    }
  }

  /** `into_iter().find(|a| a.state == state)`. */
  method FirstInState(listed: seq<Attempt>, state: AttemptState) returns (found: Option<Attempt>)
    ensures found.Some? ==> found.value in listed && found.value.state == state
    ensures found.None? ==> forall a :: a in listed ==> a.state != state
  {
    for i := 0 to |listed|
      invariant forall a :: a in listed[..i] ==> a.state != state
    {
      if listed[i].state == state {
        return Some(listed[i]);
      }
      assert listed[..i + 1] == listed[..i] + [listed[i]];
    }
    assert listed[..|listed|] == listed;
    return None;
  }

  // The mandate's list holds exactly its stored attempts.
  lemma ListedIsStored(rows: map<string, Attempt>, index: map<string, seq<string>>, log: seq<Entry<Attempt>>,
                       mandate: string, a: Attempt)
    requires Refines(rows, index, log, MandateOf) && KeyedById(rows)
    ensures a in InGroup(log, MandateOf, mandate) <==> a.mandate == mandate && a.id in rows && rows[a.id] == a
  {
    GroupMembers(log, MandateOf, mandate, a);
    if a.id in rows {
      assert HasKey(log, a.id);
    }
  }

  lemma AmbiguousListed(rows: map<string, Attempt>, index: map<string, seq<string>>, log: seq<Entry<Attempt>>,
                        mandate: string, found: Option<Attempt>)
    requires Refines(rows, index, log, MandateOf) && KeyedById(rows)
    requires found.Some? ==> found.value in InGroup(log, MandateOf, mandate) && found.value.state == OutcomeAmbiguous
    requires found.None? ==> forall a :: a in InGroup(log, MandateOf, mandate) ==> a.state != OutcomeAmbiguous
    ensures found.Some? ==> IsAmbiguousOf(rows, mandate, found.value.id) && rows[found.value.id] == found.value
    ensures found.None? ==> !HasAmbiguous(rows, mandate)
  {
    if found.Some? {
      ListedIsStored(rows, index, log, mandate, found.value);
    } else {
      forall id | id in rows ensures !IsAmbiguousOf(rows, mandate, id) {
        ListedIsStored(rows, index, log, mandate, rows[id]);
      }
    }
  }

  /** `by_mandate(..)` and then the first ambiguous attempt of the list. */
  method AmbiguousOf(attempts: IndexedStore<Attempt>, mandate: string) returns (found: Option<Attempt>)
    requires attempts.Valid() && attempts.groupOf == MandateOf && KeyedById(attempts.rows)
    ensures found.Some? ==>
      IsAmbiguousOf(attempts.rows, mandate, found.value.id) && attempts.rows[found.value.id] == found.value
    ensures found.None? ==> !HasAmbiguous(attempts.rows, mandate)
  {
    var listed := attempts.ByGroup(mandate);
    found := FirstInState(listed, OutcomeAmbiguous);
    AmbiguousListed(attempts.rows, attempts.index, attempts.log, mandate, found);
  }

  class Backend {
    const requests: RequestStore
    const decisions: IndexedStore<Decision>
    const mandates: MandateStore
    const attempts: IndexedStore<Attempt>
    const receipts: IndexedStore<Receipt>
    const nodes: Table<Node>
    const deliveries: Table<Delivery>
    const tracker: Tracker
    const audit: AuditLog
    const provider: Provider

    ghost function Repr(): set<object> {
      {requests, decisions, mandates, attempts, receipts, nodes, deliveries, tracker, audit, provider}
    }

    ghost predicate Valid()
      reads Repr()
    {
      && requests.Valid() && decisions.Valid() && attempts.Valid() && receipts.Valid()
      && decisions.groupOf == DecidedRequest && attempts.groupOf == MandateOf && receipts.groupOf == ReceiptMandate
      && Summarises(tracker.latest, tracker.history)
      && KeyedById(attempts.rows)
    }

    /** The stores as the machine sees them. */
    ghost function View(): Stores
      reads Repr()
    {
      Stores(requests.Contents(), decisions.rows, mandates.projections, attempts.rows, receipts.rows,
             nodes.rows, deliveries.rows, tracker.latest, audit.events, provider.calls)
    }

    constructor (requests: RequestStore, decisions: IndexedStore<Decision>, mandates: MandateStore,
                 attempts: IndexedStore<Attempt>, receipts: IndexedStore<Receipt>, nodes: Table<Node>,
                 deliveries: Table<Delivery>, tracker: Tracker, audit: AuditLog, provider: Provider)
      requires requests.Valid() && decisions.Valid() && attempts.Valid() && receipts.Valid()
      requires decisions.groupOf == DecidedRequest && attempts.groupOf == MandateOf
        && receipts.groupOf == ReceiptMandate
      requires Summarises(tracker.latest, tracker.history)
      requires KeyedById(attempts.rows)
      ensures Valid()
      ensures View() == Stores(requests.Contents(), decisions.rows, mandates.projections, attempts.rows, receipts.rows,
                               nodes.rows, deliveries.rows, tracker.latest, audit.events, provider.calls)
    {
      this.requests, this.decisions, this.mandates := requests, decisions, mandates;
      this.attempts, this.receipts, this.nodes := attempts, receipts, nodes;
      this.deliveries, this.tracker, this.audit, this.provider := deliveries, tracker, audit, provider;
    }

    method GetRequest(id: string) returns (found: Option<ActionRequest>)
      requires Valid()
      ensures Valid() && View() == old(View())
      ensures Perform(View(), Await.GetRequest(id), ANY) == (View(), GotRequest(Lookup(View().requests, id)))
      ensures found.Some? <==> id in View().requests
      ensures found.Some? ==> var r := View().requests[id];
        found.value == ActionRequest(r.requestedBy, r.intent, r.status, r.createdAt)
    {
      found := requests.Get(id);
    }

    method PutRequest(id: string, request: ActionRequest) returns (ok: bool)
      requires Valid()
      modifies Repr()
      ensures Valid()
      ensures var r := Request(request.requestedBy, request.intent, request.status, request.createdAt, 1);
        Perform(old(View()), Await.PutRequest(id, r), ANY)
        == (View(), Stored(ok))
    {
      ok := requests.Insert(id, request);
    }

    method SwapRequest(id: string, expected: int, status: RequestStatus) returns (out: CasOutcome)
      requires Valid()
      modifies Repr()
      ensures Valid() && Perform(old(View()), Await.SwapRequest(id, expected, status), ANY) == (View(), Swapped(out))
    {
      out := requests.CompareAndSwap(id, expected, status);
    }

    method PutDecision(id: string, decision: Decision) returns (ok: bool)
      requires Valid()
      modifies Repr()
      ensures Valid() && Perform(old(View()), Await.PutDecision(id, decision), ANY) == (View(), Stored(ok))
    {
      ok := decisions.Insert(id, decision);
    }

    method GetMandate(id: string) returns (found: Option<Mandate>)
      requires Valid()
      ensures Valid() && View() == old(View())
      ensures Perform(View(), Await.GetMandate(id), ANY) == (View(), GotMandate(found))
    {
      found := if id in mandates.projections then Some(mandates.projections[id]) else None;
    }

    method SwapMandate(id: string, expected: int, state: Label) returns (out: CasOutcome)
      requires Valid()
      modifies Repr()
      ensures Valid() && Perform(old(View()), Await.SwapMandate(id, expected, state), ANY) == (View(), Swapped(out))
    {
      out := mandates.CompareAndSwap(id, expected, state);
    }

    method PutAttempt(attempt: Attempt) returns (ok: bool)
      requires Valid()
      modifies Repr()
      ensures Valid() && Perform(old(View()), Await.PutAttempt(attempt), ANY) == (View(), Stored(ok))
    {
      hide RequestStore.Valid, RequestStore.Contents, IndexedStore.Valid, Summarises;
      ok := attempts.Insert(attempt.id, attempt);
    }

    method SetAttemptState(id: string, to: AttemptState) returns (ok: bool)
      requires Valid()
      modifies Repr()
      ensures Valid() && Perform(old(View()), Await.SetAttemptState(id, to), ANY) == (View(), Stored(ok))
    {
      ok := UpdateState(attempts, id, to);
    }

    method SetAttemptDeployment(id: string, deployment: int) returns (ok: bool)
      requires Valid()
      modifies Repr()
      ensures Valid() && Perform(old(View()), Await.SetAttemptDeployment(id, deployment), ANY) == (View(), Stored(ok))
    {
      ok := UpdateDeploymentId(attempts, id, deployment);
    }

    method FirstAmbiguous(mandate: string) returns (found: Option<Attempt>)
      requires Valid()
      ensures Valid() && View() == old(View())
      ensures Perform(View(), Await.FindAmbiguous(mandate), Choice(if found.Some? then found.value.id else "", None))
        == (View(), GotAttempt(found))
    {
      hide RequestStore.Valid, RequestStore.Contents, IndexedStore.Valid, Summarises, KeyedById;
      found := AmbiguousOf(attempts, mandate);
    }

    /** `values().find(..)`: a hash map yields its values in no particular order. */
    method ByDeployment(deployment: int) returns (found: Option<Attempt>)
      requires Valid()
      ensures Valid() && View() == old(View())
      ensures Perform(View(), Await.FindByDeployment(deployment),
                      Choice(if found.Some? then found.value.id else "", None))
        == (View(), GotAttempt(found))
    {
      hide RequestStore.Valid, RequestStore.Contents, IndexedStore.Valid, Summarises;
      if id :| id in attempts.rows && attempts.rows[id].deployment == Some(deployment) {
        assert HoldsDeployment(attempts.rows, deployment, id);
        found := Some(attempts.rows[id]);
      } else {
        found := None;
      }
    }

    method PutReceipt(receipt: Receipt) returns (ok: bool)
      requires Valid()
      modifies Repr()
      ensures Valid() && Perform(old(View()), Await.PutReceipt(receipt), ANY) == (View(), Stored(ok))
    {
      ok := receipts.Insert(receipt.id, receipt);
    }

    method PutNode(node: Node) returns (ok: bool)
      requires Valid()
      modifies Repr()
      ensures Valid() && Perform(old(View()), Await.PutNode(node), ANY) == (View(), Stored(ok))
    {
      ok := nodes.Insert(node.id, node);
    }

    method GetDelivery(id: string) returns (found: Option<Delivery>)
      requires Valid()
      ensures Valid() && View() == old(View())
      ensures Perform(View(), Await.GetDelivery(id), ANY) == (View(), GotDelivery(found))
    {
      found := if id in deliveries.rows then Some(deliveries.rows[id]) else None;
    }

    method PutDelivery(id: string, delivery: Delivery) returns (ok: bool)
      requires Valid()
      modifies Repr()
      ensures Valid() && Perform(old(View()), Await.PutDelivery(id, delivery), ANY) == (View(), Stored(ok))
      ensures tracker.history == old(tracker.history)
    {
      ok := deliveries.Insert(id, delivery);
    }

    method TrackTime(deployment: int, at: int) returns (late: bool)
      requires Valid()
      modifies Repr()
      ensures Valid() && Perform(old(View()), Await.TrackTime(deployment, at), ANY) == (View(), Late(late))
      ensures late <==> OutOfOrder(old(tracker.history), deployment, at)
      ensures tracker.history == old(tracker.history) + [Arrival(deployment, at)]
    {
      late := tracker.Record(deployment, at);
    }

    method Log(event: Audit)
      requires Valid()
      modifies Repr()
      ensures Valid() && Perform(old(View()), Await.Log(event), ANY) == (View(), Logged)
      ensures tracker.history == old(tracker.history)
    {
      audit.Append(event);
    }

    method CreateDeployment(call: ProviderCall, answer: Option<int>) returns (deployment: Option<int>)
      requires Valid()
      modifies Repr()
      ensures Valid() && deployment == answer
      ensures Perform(old(View()), Await.CreateDeployment(call), Choice("", answer)) == (View(), Answered(answer))
    {
      deployment := provider.Create(call, answer);
    }
  }

  lemma BackendIsKeyed(b: Backend)
    requires b.Valid()
    ensures KeyedById(b.View().attempts)
  {
  }
}
