/**
 The shared state, and what one awaited call does to it: one mutex section of the in-memory
 adapters, one SQL statement of the Postgres adapters, or one call to the provider.
 */
module Stores {
  import opened Records

  /** `provider` is GitHub's own record of the deployment calls it received. */
  datatype Stores = Stores(
    requests: map<string, Request>,
    decisions: map<string, Decision>,
    mandates: map<string, Mandate>,
    attempts: map<string, Attempt>,
    receipts: map<string, Receipt>,
    nodes: map<string, Node>,
    deliveries: map<string, Delivery>,
    latest: map<int, int>,
    audit: seq<Audit>,
    provider: seq<ProviderCall>)

  const EMPTY := Stores(map[], map[], map[], map[], map[], map[], map[], map[], [], [])

  /** `MandateProjectionStore::compare_and_swap`: it looks at the version alone. */
  function Cas(ms: map<string, Mandate>, id: string, expected: int, state: Label): (map<string, Mandate>, CasOutcome) {
    if id !in ms then (ms, Missing)
    else if ms[id].version != expected then (ms, Conflict(ms[id].version))
    else (ms[id := Mandate(expected + 1, state)], Applied(expected + 1))
  }

  /** `ActionRequestStore::compare_and_swap`. */
  function CasStatus(rs: map<string, Request>, id: string, expected: int, status: RequestStatus)
    : (map<string, Request>, CasOutcome)
  {
    if id !in rs then (rs, Missing)
    else if rs[id].version != expected then (rs, Conflict(rs[id].version))
    else (rs[id := rs[id].(status := status, version := expected + 1)], Applied(expected + 1))
  }

  /** Insert-once: a store keyed by a primary key refuses an existing key and leaves it as it is. */
  function InsertOnce<R>(m: map<string, R>, id: string, record: R): (map<string, R>, bool) {
    if id == "" || id in m then (m, false) else (m[id := record], true)
  }

  /** `update_state` and `update_deployment_id` rewrite one field of an existing attempt. */
  function SetState(m: map<string, Attempt>, id: string, state: AttemptState): (map<string, Attempt>, bool) {
    if id in m then (m[id := m[id].(state := state)], true) else (m, false)
  }

  function SetDeployment(m: map<string, Attempt>, id: string, deployment: int): (map<string, Attempt>, bool) {
    if id in m then (m[id := m[id].(deployment := Some(deployment))], true) else (m, false)
  }

  /** `LastReceivedTracker::record`. */
  function Track(latest: map<int, int>, deployment: int, at: int): (map<int, int>, bool) {
    if deployment !in latest then (latest[deployment := at], false)
    else (latest[deployment := if latest[deployment] < at then at else latest[deployment]], at < latest[deployment])
  }

  ghost predicate KeyedById(rows: map<string, Attempt>) {
    forall k :: k in rows ==> rows[k].id == k
  }

  /** The attempts `reconcile` and `abandon_unresolved` choose from. */
  predicate IsAmbiguousOf(m: map<string, Attempt>, mandate: string, id: string) {
    id in m && m[id].mandate == mandate && m[id].state == OutcomeAmbiguous
  }

  predicate HasAmbiguous(m: map<string, Attempt>, mandate: string) {
    exists id :: id in m && IsAmbiguousOf(m, mandate, id)
  }

  /** The attempts `by_deployment_id` chooses from; which one it returns is up to the adapter. */
  predicate HoldsDeployment(m: map<string, Attempt>, deployment: int, id: string) {
    id in m && m[id].deployment == Some(deployment)
  }

  predicate DeploymentKnown(m: map<string, Attempt>, deployment: int) {
    exists id :: id in m && HoldsDeployment(m, deployment, id)
  }

  function Lookup<R>(m: map<string, R>, id: string): Option<R> {
    if id in m then Some(m[id]) else None
  }

  /** The provider was called for mandate m. */
  ghost predicate Called(calls: seq<ProviderCall>, m: string) {
    exists c :: c in calls && c.mandate == m
  }

  /** What an operation awaits next. */
  datatype Await =
    | GetRequest(id: string) | PutRequest(id: string, request: Request)
    | SwapRequest(id: string, expected: int, status: RequestStatus)
    | PutDecision(id: string, decision: Decision)
    | GetMandate(id: string) | SwapMandate(id: string, expected: int, state: Label)
    | PutAttempt(attempt: Attempt)
    | SetAttemptState(id: string, to: AttemptState) | SetAttemptDeployment(id: string, deployment: int)
    | FindAmbiguous(mandate: string) | FindByDeployment(deployment: int)
    | PutReceipt(receipt: Receipt) | PutNode(node: Node)
    | GetDelivery(id: string) | PutDelivery(id: string, delivery: Delivery) | TrackTime(deployment: int, at: int)
    | Log(event: Audit)
    | CreateDeployment(call: ProviderCall) | FindCorrelated(attempt: Attempt)
    | Idle

  datatype Reply =
    | GotRequest(request: Option<Request>) | GotMandate(mandate: Option<Mandate>) | GotAttempt(attempt: Option<Attempt>)
    | GotDelivery(delivery: Option<Delivery>)
    | Swapped(outcome: CasOutcome) | Stored(ok: bool) | Late(late: bool) | Logged
    | Answered(id: Option<int>)
    | NoReply

  /** What the outside decides: which row an unordered lookup returns, and what the provider answers. */
  datatype Choice = Choice(pick: string, answer: Option<int>)

  /** For calls that leave the outside nothing to decide. */
  const ANY := Choice("", None)

  /** One atomic call. A lookup whose `pick` is no possible row gives no reply: that move does not happen. */
  function Perform(s: Stores, a: Await, c: Choice): (Stores, Reply) {
    match a
    case GetRequest(id) => (s, GotRequest(Lookup(s.requests, id)))
    case PutRequest(id, r) => var (m, ok) := InsertOnce(s.requests, id, r); (s.(requests := m), Stored(ok))
    case SwapRequest(id, expected, status) =>
      var (m, out) := CasStatus(s.requests, id, expected, status); (s.(requests := m), Swapped(out))
    case PutDecision(id, d) => var (m, ok) := InsertOnce(s.decisions, id, d); (s.(decisions := m), Stored(ok))
    case GetMandate(id) => (s, GotMandate(Lookup(s.mandates, id)))
    case SwapMandate(id, expected, state) =>
      var (m, out) := Cas(s.mandates, id, expected, state); (s.(mandates := m), Swapped(out))
    case PutAttempt(a) => var (m, ok) := InsertOnce(s.attempts, a.id, a); (s.(attempts := m), Stored(ok))
    case SetAttemptState(id, to) => var (m, ok) := SetState(s.attempts, id, to); (s.(attempts := m), Stored(ok))
    case SetAttemptDeployment(id, d) => var (m, ok) := SetDeployment(s.attempts, id, d); (s.(attempts := m), Stored(ok))
    case FindAmbiguous(mandate) =>
      if !HasAmbiguous(s.attempts, mandate) then (s, GotAttempt(None))
      else if IsAmbiguousOf(s.attempts, mandate, c.pick) then (s, GotAttempt(Some(s.attempts[c.pick])))
      else (s, NoReply)
    case FindByDeployment(d) =>
      if !DeploymentKnown(s.attempts, d) then (s, GotAttempt(None))
      else if HoldsDeployment(s.attempts, d, c.pick) then (s, GotAttempt(Some(s.attempts[c.pick])))
      else (s, NoReply)
    case PutReceipt(r) => var (m, ok) := InsertOnce(s.receipts, r.id, r); (s.(receipts := m), Stored(ok))
    case PutNode(n) => var (m, ok) := InsertOnce(s.nodes, n.id, n); (s.(nodes := m), Stored(ok))
    case GetDelivery(id) => (s, GotDelivery(Lookup(s.deliveries, id)))
    case PutDelivery(id, d) => var (m, ok) := InsertOnce(s.deliveries, id, d); (s.(deliveries := m), Stored(ok))
    case TrackTime(d, at) => var (m, late) := Track(s.latest, d, at); (s.(latest := m), Late(late))
    case Log(e) => (s.(audit := s.audit + [e]), Logged)
    case CreateDeployment(call) => (s.(provider := s.provider + [call]), Answered(c.answer))
    case FindCorrelated(_) => (s, Answered(c.answer))
    case Idle => (s, NoReply)
  }

  lemma OnlyLogWritesLog(s: Stores, a: Await, c: Choice)
    ensures Perform(s, a, c).0.audit == if a.Log? then s.audit + [a.event] else s.audit
  {
  }
}
