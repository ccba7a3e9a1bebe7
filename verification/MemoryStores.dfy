/**
 The in-memory adapters (crates/piteka-storage/src/memory.rs) and the out-of-order tracker of the
 webhook ingestion. Each method is one mutex section, proved to be the atomic call the machine makes.
 */
module MemoryStores {
  import opened Records
  import opened Stores

  // ----- Indexed stores: attempts, receipts and decisions

  datatype Entry<+R> = Entry(key: string, row: R)

  /** What a plain log of insertions, updated in place, would answer. */
  function InGroup<R>(log: seq<Entry<R>>, groupOf: R -> string, g: string): seq<R> {
    if log == [] then []
    else
      var last := log[|log| - 1].row;
      InGroup(log[..|log| - 1], groupOf, g) + if groupOf(last) == g then [last] else []
  }

  function GroupKeys<R>(log: seq<Entry<R>>, groupOf: R -> string, g: string): seq<string> {
    if log == [] then []
    else
      var last := log[|log| - 1];
      GroupKeys(log[..|log| - 1], groupOf, g) + if groupOf(last.row) == g then [last.key] else []
  }

  ghost predicate Distinct<R(!new)>(log: seq<Entry<R>>) {
    forall i, j :: 0 <= i < j < |log| ==> log[i].key != log[j].key
  }

  ghost predicate Holds<R>(rows: map<string, R>, log: seq<Entry<R>>) {
    forall i :: 0 <= i < |log| ==> log[i].key in rows && rows[log[i].key] == log[i].row
  }

  // The rows named by a group's keys are the group's rows.
  lemma {:induction false} KeysNameRows<R(!new)>(rows: map<string, R>, log: seq<Entry<R>>, groupOf: R -> string,
                                                 g: string, k: nat)
    requires Holds(rows, log)
    ensures |GroupKeys(log, groupOf, g)| == |InGroup(log, groupOf, g)|
    ensures k < |InGroup(log, groupOf, g)| ==>
      GroupKeys(log, groupOf, g)[k] in rows && rows[GroupKeys(log, groupOf, g)[k]] == InGroup(log, groupOf, g)[k]
  {
    if log != [] {
      KeysNameRows(rows, log[..|log| - 1], groupOf, g, k);
    }
  }

  /** The group lists a row exactly when the row is in the log and belongs to the group. */
  lemma {:induction false} GroupMembers<R(!new)>(log: seq<Entry<R>>, groupOf: R -> string, g: string, r: R)
    ensures r in InGroup(log, groupOf, g) <==> groupOf(r) == g && exists i :: 0 <= i < |log| && log[i].row == r
  {
    if log != [] {
      var n := |log| - 1;
      GroupMembers(log[..n], groupOf, g, r);
      assert forall i :: 0 <= i < n ==> log[..n][i] == log[i];
    }
  }

  // One key at most in a group: one row at most.
  lemma {:induction false} LoneKey<R(!new)>(log: seq<Entry<R>>, groupOf: R -> string, g: string, key: string)
    requires Distinct(log) && forall i :: 0 <= i < |log| && groupOf(log[i].row) == g ==> log[i].key == key
    ensures |InGroup(log, groupOf, g)| <= 1
    ensures (forall i :: 0 <= i < |log| ==> log[i].key != key) ==> InGroup(log, groupOf, g) == []
  {
    if log != [] {
      var n := |log| - 1;
      LoneKey(log[..n], groupOf, g, key);
      assert groupOf(log[n].row) == g ==> forall i :: 0 <= i < n ==> log[..n][i].key != key;
    }
  }

  // Rewriting a row inside its group leaves every group's keys, hence the index, as they are.
  lemma {:induction false} RewriteKeepsKeys<R(!new)>(log: seq<Entry<R>>, groupOf: R -> string, g: string, i: nat,
                                                     row: R)
    requires i < |log| && groupOf(row) == groupOf(log[i].row)
    ensures GroupKeys(log[i := Entry(log[i].key, row)], groupOf, g) == GroupKeys(log, groupOf, g)
  {
    var n := |log| - 1;
    var changed := log[i := Entry(log[i].key, row)];
    if i < n {
      assert changed[..n] == log[..n][i := Entry(log[i].key, row)];
      RewriteKeepsKeys(log[..n], groupOf, g, i, row);
    } else {
      assert changed[..n] == log[..n];
    }
  }

  ghost predicate HasKey<R(!new)>(log: seq<Entry<R>>, key: string) {
    exists i :: 0 <= i < |log| && log[i].key == key
  }

  ghost predicate IndexAgrees<R>(index: map<string, seq<string>>, log: seq<Entry<R>>, groupOf: R -> string) {
    forall g :: (if g in index then index[g] else []) == GroupKeys(log, groupOf, g)
  }

  /** The two maps say what the log says. */
  ghost predicate Refines<R(!new)>(rows: map<string, R>, index: map<string, seq<string>>, log: seq<Entry<R>>,
                                   groupOf: R -> string) {
    && Distinct(log) && Holds(rows, log) && (forall k :: k in rows ==> HasKey(log, k))
    && IndexAgrees(index, log, groupOf)
  }

  lemma AppendIndexes<R>(index: map<string, seq<string>>, log: seq<Entry<R>>, groupOf: R -> string, key: string, row: R)
    requires IndexAgrees(index, log, groupOf)
    ensures var g := groupOf(row);
      IndexAgrees(index[g := (if g in index then index[g] else []) + [key]], log + [Entry(key, row)], groupOf)
  {
    assert (log + [Entry(key, row)])[..|log|] == log;
  }

  lemma AppendRefines<R(!new)>(rows: map<string, R>, index: map<string, seq<string>>, log: seq<Entry<R>>,
                               groupOf: R -> string, key: string, row: R)
    requires Refines(rows, index, log, groupOf) && key !in rows
    ensures var g := groupOf(row);
      Refines(rows[key := row], index[g := (if g in index then index[g] else []) + [key]], log + [Entry(key, row)],
              groupOf)
  {
    AppendIndexes(index, log, groupOf, key, row);
    AppendHolds(rows, log, key, row);
  }

  lemma AppendHolds<R(!new)>(rows: map<string, R>, log: seq<Entry<R>>, key: string, row: R)
    requires Distinct(log) && Holds(rows, log) && (forall k :: k in rows ==> HasKey(log, k)) && key !in rows
    ensures var longer, more := log + [Entry(key, row)], rows[key := row];
      Distinct(longer) && Holds(more, longer) && forall k :: k in more ==> HasKey(longer, k)
  {
    var longer := log + [Entry(key, row)];
    assert longer[|log|].key == key;
    forall k | k in rows ensures HasKey(longer, k) {
      var i :| 0 <= i < |log| && log[i].key == k;
      assert longer[i].key == k;
    }
  }

  lemma RewriteRefines<R(!new)>(rows: map<string, R>, index: map<string, seq<string>>, log: seq<Entry<R>>,
                                groupOf: R -> string, i: nat, row: R)
    requires Refines(rows, index, log, groupOf) && i < |log| && groupOf(row) == groupOf(log[i].row)
    ensures Refines(rows[log[i].key := row], index, log[i := Entry(log[i].key, row)], groupOf)
  {
    hide GroupKeys;
    var changed := log[i := Entry(log[i].key, row)];
    forall g ensures GroupKeys(changed, groupOf, g) == GroupKeys(log, groupOf, g) {
      RewriteKeepsKeys(log, groupOf, g, i, row);
    }
    forall k | k in rows ensures HasKey(changed, k) {
      var j :| 0 <= j < |log| && log[j].key == k;
      assert changed[j].key == k;
    }
  }

  lemma GroupIsNamed<R(!new)>(rows: map<string, R>, log: seq<Entry<R>>, groupOf: R -> string, g: string)
    requires Holds(rows, log)
    ensures var keys, group := GroupKeys(log, groupOf, g), InGroup(log, groupOf, g);
      |keys| == |group| && forall k :: 0 <= k < |keys| ==> keys[k] in rows && rows[keys[k]] == group[k]
  {
    forall k: nat ensures |GroupKeys(log, groupOf, g)| == |InGroup(log, groupOf, g)|
      && (k < |InGroup(log, groupOf, g)| ==>
            GroupKeys(log, groupOf, g)[k] in rows && rows[GroupKeys(log, groupOf, g)[k]] == InGroup(log, groupOf, g)[k])
    {
      KeysNameRows(rows, log, groupOf, g, k);
    }
  }

  /** A group whose rows can have one key only is listed as that row, or as nothing. */
  lemma LoneMember<R(!new)>(rows: map<string, R>, index: map<string, seq<string>>, log: seq<Entry<R>>,
                            groupOf: R -> string, g: string, key: string)
    requires Refines(rows, index, log, groupOf)
    requires forall k :: k in rows && groupOf(rows[k]) == g ==> k == key
    ensures InGroup(log, groupOf, g) == if key in rows && groupOf(rows[key]) == g then [rows[key]] else []
  {
    var group := InGroup(log, groupOf, g);
    LoneKey(log, groupOf, g, key);
    if key in rows {
      GroupMembers(log, groupOf, g, rows[key]);
      assert HasKey(log, key);
    }
    if group != [] {
      GroupMembers(log, groupOf, g, group[0]);
      assert group[0] in group && group == [group[0]];
    }
  }

  // The rows whose keys a loop walks through, in order.
  method Collect<R>(rows: map<string, R>, keys: seq<string>, ghost group: seq<R>) returns (found: seq<R>)
    requires |keys| == |group| && forall k :: 0 <= k < |keys| ==> keys[k] in rows && rows[keys[k]] == group[k]
    ensures found == group
  {
    found := [];
    for i := 0 to |keys|
      invariant found == group[..i]
    {
      if keys[i] in rows {
        found := found + [rows[keys[i]]];
      }
    }
  }

  /** Two maps behind two mutexes that are always taken together: the rows, and each group's keys in insertion order. */
  class IndexedStore<R(!new)> {
    var rows: map<string, R>
    var index: map<string, seq<string>>
    const groupOf: R -> string
    /** The refined object: every record ever inserted, in order, with its latest fields. */
    ghost var log: seq<Entry<R>>

    ghost predicate Valid()
      reads this
    {
      Refines(rows, index, log, groupOf)
    }

    constructor (groupOf: R -> string)
      ensures Valid() && rows == map[] && log == [] && this.groupOf == groupOf
    {
      this.groupOf := groupOf;
      rows, index, log := map[], map[], [];
    }

    method Insert(key: string, row: R) returns (ok: bool)
      requires Valid()
      modifies this
      ensures Valid()
      ensures (rows, ok) == InsertOnce(old(rows), key, row)
      ensures log == if ok then old(log) + [Entry(key, row)] else old(log)
    {
      if key == "" || key in rows {
        return false;
      }
      AppendRefines(rows, index, log, groupOf, key, row);
      rows := rows[key := row];
      var g := groupOf(row);
      index := index[g := (if g in index then index[g] else []) + [key]];
      log := log + [Entry(key, row)];
      return true;
    }

    method Get(key: string) returns (found: Option<R>)
      requires Valid()
      ensures found == Lookup(rows, key)
      ensures forall i :: 0 <= i < |log| && log[i].key == key ==> found == Some(log[i].row)
      ensures found.None? ==> !HasKey(log, key)
    {
      found := if key in rows then Some(rows[key]) else None;
    }

    /** `update_state` and `update_deployment_id`: one record changes fields, never its group. */
    method Rewrite(key: string, row: R) returns (ghost i: nat)
      requires Valid() && key in rows && groupOf(row) == groupOf(rows[key])
      modifies this
      ensures Valid() && rows == old(rows)[key := row]
      ensures i < |old(log)| && old(log)[i].key == key && log == old(log)[i := Entry(key, row)]
    {
      assert HasKey(log, key);
      i :| 0 <= i < |log| && log[i].key == key;
      RewriteRefines(rows, index, log, groupOf, i, row);
      rows := rows[key := row];
      log := log[i := Entry(key, row)];
    }

    /** `by_mandate` and `by_request` answer what the plain log would. */
    method ByGroup(g: string) returns (found: seq<R>)
      requires Valid()
      ensures found == InGroup(log, groupOf, g)
    {
      GroupIsNamed(rows, log, groupOf, g);
      found := Collect(rows, if g in index then index[g] else [], InGroup(log, groupOf, g));
    }
  }

  function MandateOf(a: Attempt): string { a.mandate }
  function ReceiptMandate(r: Receipt): string { r.mandate }
  function DecidedRequest(d: Decision): string { d.request }

  method UpdateState(attempts: IndexedStore<Attempt>, id: string, to: AttemptState) returns (ok: bool)
    requires attempts.Valid() && attempts.groupOf == MandateOf
    modifies attempts
    ensures attempts.Valid() && (attempts.rows, ok) == SetState(old(attempts.rows), id, to)
    ensures KeyedById(old(attempts.rows)) ==> KeyedById(attempts.rows)
  {
    if id !in attempts.rows {
      return false;
    }
    var _ := attempts.Rewrite(id, attempts.rows[id].(state := to));
    return true;
  }

  method UpdateDeploymentId(attempts: IndexedStore<Attempt>, id: string, deployment: int) returns (ok: bool)
    requires attempts.Valid() && attempts.groupOf == MandateOf
    modifies attempts
    ensures attempts.Valid() && (attempts.rows, ok) == SetDeployment(old(attempts.rows), id, deployment)
    ensures KeyedById(old(attempts.rows)) ==> KeyedById(attempts.rows)
  {
    if id !in attempts.rows {
      return false;
    }
    var _ := attempts.Rewrite(id, attempts.rows[id].(deployment := Some(deployment)));
    return true;
  }

  // ----- Mandates

  class MandateStore {
    var projections: map<string, Mandate>

    constructor ()
      ensures projections == map[]
    {
      projections := map[];
    }

    method Insert(id: string, state: Label) returns (ok: bool)
      modifies this
      ensures (projections, ok) == InsertOnce(old(projections), id, Mandate(1, state))
    {
      if id == "" || id in projections {
        return false;
      }
      projections := projections[id := Mandate(1, state)];
      return true;
    }

    method CompareAndSwap(id: string, expected: int, state: Label) returns (out: CasOutcome)
      modifies this
      ensures (projections, out) == Cas(old(projections), id, expected, state)
    {
      if id !in projections {
        return Missing;
      }
      var projection := projections[id];
      if projection.version != expected {
        return Conflict(projection.version);
      }
      projections := projections[id := Mandate(projection.version + 1, state)];
      return Applied(projection.version + 1);
    }
  }

  // ----- Action requests: the version lives in a second map and defaults to 1

  datatype ActionRequest = ActionRequest(requestedBy: string, intent: Option<string>, status: RequestStatus,
                                         createdAt: int)

  class RequestStore {
    var requests: map<string, ActionRequest>
    var versions: map<string, int>

    /** No version is kept for a request that is not there. */
    ghost predicate Valid()
      reads this
    {
      versions.Keys <= requests.Keys
    }

    function VersionOf(id: string): int
      reads this
    {
      if id in versions then versions[id] else 1
    }

    ghost function Contents(): map<string, Request>
      reads this
    {
      map id | id in requests ::
        Request(requests[id].requestedBy, requests[id].intent, requests[id].status, requests[id].createdAt,
                VersionOf(id))
    }

    constructor ()
      ensures Valid() && Contents() == map[]
    {
      requests, versions := map[], map[];
    }

    method Insert(id: string, request: ActionRequest) returns (ok: bool)
      requires Valid()
      modifies this
      ensures Valid()
      ensures (Contents(), ok) == InsertOnce(old(Contents()), id,
        Request(request.requestedBy, request.intent, request.status, request.createdAt, 1))
    {
      if id == "" || id in requests {
        return false;
      }
      requests := requests[id := request];
      assert Contents() == old(Contents())[id := Request(request.requestedBy, request.intent, request.status,
                                                         request.createdAt, 1)];
      return true;
    }

    method Get(id: string) returns (found: Option<ActionRequest>)
      ensures found.Some? <==> id in Contents()
      ensures found.Some? ==> var r := Contents()[id];
        found.value == ActionRequest(r.requestedBy, r.intent, r.status, r.createdAt)
    {
      found := if id in requests then Some(requests[id]) else None;
    }

    method CompareAndSwap(id: string, expected: int, status: RequestStatus) returns (out: CasOutcome)
      requires Valid()
      modifies this
      ensures Valid()
      ensures (Contents(), out) == CasStatus(old(Contents()), id, expected, status)
    {
      if id !in requests {
        return Missing;
      }
      var current := VersionOf(id);
      if current != expected {
        return Conflict(current);
      }
      versions := versions[id := current + 1];
      requests := requests[id := requests[id].(status := status)];
      assert Contents() == old(Contents())[id := old(Contents())[id].(status := status, version := current + 1)];
      return Applied(current + 1);
    }
  }

  // ----- Evidence nodes and webhook deliveries: insert-once tables

  class Table<R> {
    var rows: map<string, R>

    constructor ()
      ensures rows == map[]
    {
      rows := map[];
    }

    method Insert(key: string, row: R) returns (ok: bool)
      modifies this
      ensures (rows, ok) == InsertOnce(old(rows), key, row)
    {
      if key == "" || key in rows {
        return false;
      }
      rows := rows[key := row];
      return true;
    }
  }

  // ----- The audit log

  class AuditLog {
    var events: seq<Audit>

    constructor ()
      ensures events == []
    {
      events := [];
    }

    method Append(event: Audit)
      modifies this
      ensures events == old(events) + [event]
    {
      events := events + [event];
    }

    /** The last `limit` events, oldest first. */
    method Recent(limit: nat) returns (last: seq<Audit>)
      ensures |last| == if limit < |events| then limit else |events|
      ensures exists older :: events == older + last
    {
      var start := if limit <= |events| then |events| - limit else 0;
      last := events[start..];
      assert events == events[..start] + last;
    }
  }

  // ----- The out-of-order tracker

  datatype Arrival = Arrival(deployment: int, at: int)

  /** An earlier arrival for the same deployment carries a strictly greater provider time. */
  ghost predicate OutOfOrder(history: seq<Arrival>, deployment: int, at: int) {
    exists i :: 0 <= i < |history| && history[i].deployment == deployment && at < history[i].at
  }

  /** One number for each deployment stands for its whole history: the greatest time that arrived. */
  ghost predicate Summarises(latest: map<int, int>, history: seq<Arrival>) {
    && (forall i :: 0 <= i < |history| ==>
          history[i].deployment in latest && history[i].at <= latest[history[i].deployment])
    && (forall d :: d in latest ==> exists i :: 0 <= i < |history| && history[i] == Arrival(d, latest[d]))
  }

  class Tracker {
    var latest: map<int, int>
    ghost var history: seq<Arrival>

    constructor ()
      ensures Summarises(latest, history) && history == [] && latest == map[]
    {
      latest, history := map[], [];
    }

    method Record(deployment: int, at: int) returns (late: bool)
      requires Summarises(latest, history)
      modifies this
      ensures history == old(history) + [Arrival(deployment, at)] && Summarises(latest, history)
      ensures late <==> OutOfOrder(old(history), deployment, at)
      ensures (latest, late) == Track(old(latest), deployment, at)
    {
      late := deployment in latest && at < latest[deployment];
      TrackSummarises(latest, history, deployment, at);
      if deployment in latest {
        latest := latest[deployment := if latest[deployment] < at then at else latest[deployment]];
      } else {
        latest := latest[deployment := at];
      }
      history := history + [Arrival(deployment, at)];
    }
  }

  // The number kept for the deployment answers the question about its whole history.
  lemma TrackSummarises(latest: map<int, int>, history: seq<Arrival>, deployment: int, at: int)
    requires Summarises(latest, history)
    ensures var (next, late) := Track(latest, deployment, at);
      (late <==> OutOfOrder(history, deployment, at)) && Summarises(next, history + [Arrival(deployment, at)])
  {
    var next := Track(latest, deployment, at).0;
    var longer := history + [Arrival(deployment, at)];
    assert longer[|history|] == Arrival(deployment, at);
    forall d | d in next ensures exists i :: 0 <= i < |longer| && longer[i] == Arrival(d, next[d]) {
      if d in latest && next[d] == latest[d] {
        var i :| 0 <= i < |history| && history[i] == Arrival(d, latest[d]);
        assert longer[i] == Arrival(d, next[d]);
      }
    }
  }

  /** Any sequence of arrivals, fed to the tracker one by one. */
  function Fed(history: seq<Arrival>): map<int, int> {
    if history == [] then map[]
    else var last := history[|history| - 1]; Track(Fed(history[..|history| - 1]), last.deployment, last.at).0
  }

  /** After any arrivals whatever, the next event is flagged exactly when the full history says it is late. */
  lemma {:induction false} TrackerKnowsHistory(history: seq<Arrival>, deployment: int, at: int)
    ensures Summarises(Fed(history), history)
    ensures Track(Fed(history), deployment, at).1 <==> OutOfOrder(history, deployment, at)
  {
    if history != [] {
      var n := |history| - 1;
      TrackerKnowsHistory(history[..n], history[n].deployment, history[n].at);
      TrackSummarises(Fed(history[..n]), history[..n], history[n].deployment, history[n].at);
      assert history[..n] + [history[n]] == history;
    }
    TrackSummarises(Fed(history), history, deployment, at);
  }

  // ----- Immutable protocol objects

  /** `ProtocolObjectStore::put`: the first bytes stored under an id stay. */
  function Put(objects: map<string, string>, id: string, bytes: string): (map<string, string>, bool) {
    if id == "" then (objects, false)
    else if id in objects then (objects, objects[id] == bytes)
    else (objects[id := bytes], true)
  }

  class ObjectStore {
    var objects: map<string, string>

    constructor ()
      ensures objects == map[]
    {
      objects := map[];
    }

    /** Success means exactly: from now on the id reads back these bytes. Nothing stored before ever changes. */
    method PutObject(id: string, bytes: string) returns (ok: bool)
      modifies this
      ensures (objects, ok) == Put(old(objects), id, bytes)
      ensures ok <==> id != "" && id in objects && objects[id] == bytes
      ensures forall k :: k in old(objects) ==> k in objects && objects[k] == old(objects)[k]
    {
      if id == "" {
        return false;
      }
      if id in objects {
        return objects[id] == bytes;
      }
      objects := objects[id := bytes];
      return true;
    }
  }
}
