/**
 The Postgres adapters' two-statement operations (crates/piteka-storage/src/postgres.rs). Each SQL
 statement is atomic; any statements of other callers may run between the two of one operation.
 */
module Postgres {
  import opened Records
  import opened Stores
  import opened Growth
  import opened MemoryStores

  // ----- The conditional update and the read that explains its failure

  /** A statement any caller runs against `mandate_projections`. Nothing ever deletes a row. */
  datatype Statement =
    | InsertRow(id: string, state: Label)
    | UpdateWhere(id: string, expected: int, state: Label)
    | SelectRow(id: string)

  /** `UPDATE … SET version = version + 1 … WHERE id AND version = expected RETURNING version`. */
  function Update(t: map<string, Mandate>, id: string, expected: int, state: Label)
    : (map<string, Mandate>, Option<int>)
  {
    if id in t && t[id].version == expected
    then (t[id := Mandate(t[id].version + 1, state)], Some(t[id].version + 1))
    else (t, None)
  }

  function Execute(t: map<string, Mandate>, s: Statement): map<string, Mandate> {
    match s
    case InsertRow(id, state) => InsertOnce(t, id, Mandate(1, state)).0
    case UpdateWhere(id, expected, state) => Update(t, id, expected, state).0
    case SelectRow(_) => t
  }

  /** The table after a run of statements. */
  function TableAt(t: map<string, Mandate>, run: seq<Statement>): map<string, Mandate> {
    if run == [] then t else Execute(TableAt(t, run[..|run| - 1]), run[|run| - 1])
  }

  /**
   `PgMandateProjectionStore::compare_and_swap`: its UPDATE found `updated`, and its SELECT, if it came to that,
   `selected`.
   */
  function PgOutcome(updated: Option<int>, selected: Option<Mandate>): CasOutcome {
    match updated
    case Some(version) => Applied(version)
    case None => if selected.Some? then Conflict(selected.value.version) else Missing
  }

  /** The call whose UPDATE is statement i of the run and whose SELECT is statement j. */
  predicate IsCall(run: seq<Statement>, i: nat, j: nat, id: string, expected: int, state: Label) {
    i < j < |run| && run[i] == UpdateWhere(id, expected, state) && run[j] == SelectRow(id)
  }

  function CallOutcome(t: map<string, Mandate>, run: seq<Statement>, i: nat, j: nat, id: string, expected: int,
                       state: Label): CasOutcome
    requires i < j < |run|
  {
    PgOutcome(Update(TableAt(t, run[..i]), id, expected, state).1, Lookup(TableAt(t, run[..j]), id))
  }

  lemma {:induction false} TableGrows(t: map<string, Mandate>, run: seq<Statement>, i: nat, j: nat)
    requires i <= j <= |run|
    ensures MandatesGrow(TableAt(t, run[..i]), TableAt(t, run[..j]))
  {
    if i < j {
      TableGrows(t, run, i, j - 1);
      assert run[..j][..j - 1] == run[..j - 1];
      assert MandatesGrow(TableAt(t, run[..j - 1]), TableAt(t, run[..j]));
    }
  }

  /** Some moment of the call gives the one-step swap this outcome, without an effect. */
  ghost predicate FailsAtOnce(t: map<string, Mandate>, run: seq<Statement>, i: nat, j: nat, id: string, expected: int,
                              state: Label, out: CasOutcome)
    requires i < j < |run|
  {
    exists k :: i <= k <= j && Cas(TableAt(t, run[..k]), id, expected, state) == (TableAt(t, run[..k]), out)
  }

  /** Success and effect are the one-step swap's at the UPDATE; a failed call changes nothing. */
  lemma PgSwapEffect(t: map<string, Mandate>, run: seq<Statement>, i: nat, j: nat, id: string, expected: int,
                     state: Label)
    requires IsCall(run, i, j, id, expected, state)
    ensures TableAt(t, run[..i + 1]) == Cas(TableAt(t, run[..i]), id, expected, state).0
    ensures CallOutcome(t, run, i, j, id, expected, state).Applied?
      <==> Cas(TableAt(t, run[..i]), id, expected, state).1.Applied?
    ensures CallOutcome(t, run, i, j, id, expected, state).Applied? ==>
      CallOutcome(t, run, i, j, id, expected, state) == Cas(TableAt(t, run[..i]), id, expected, state).1
    ensures !CallOutcome(t, run, i, j, id, expected, state).Applied?
      ==> TableAt(t, run[..i + 1]) == TableAt(t, run[..i])
  {
    assert run[..i + 1][..i] == run[..i];
  }

  /**
   A failed call answers what the one-step swap answers at some moment between its statements exactly
   when it does not report the version it expected.
   */
  lemma PgFailureRefines(t: map<string, Mandate>, run: seq<Statement>, i: nat, j: nat, id: string, expected: int,
                         state: Label)
    requires IsCall(run, i, j, id, expected, state) && !CallOutcome(t, run, i, j, id, expected, state).Applied?
    ensures var out := CallOutcome(t, run, i, j, id, expected, state);
      FailsAtOnce(t, run, i, j, id, expected, state, out) <==> out != Conflict(expected)
  {
    var out := CallOutcome(t, run, i, j, id, expected, state);
    var last := TableAt(t, run[..j]);
    if out != Conflict(expected) {
      assert Cas(last, id, expected, state) == (last, out);
    }
  }

  /**
   That one odd answer comes up exactly when the row was behind the expected version, or not there, and caught up
   with it.
   */
  lemma PgOddAnswer(t: map<string, Mandate>, run: seq<Statement>, i: nat, j: nat, id: string, expected: int,
                    state: Label)
    requires IsCall(run, i, j, id, expected, state)
    ensures CallOutcome(t, run, i, j, id, expected, state) == Conflict(expected) <==>
      var before, after := TableAt(t, run[..i]), TableAt(t, run[..j]);
      (id !in before || before[id].version < expected) && id in after && after[id].version == expected
  {
    TableGrows(t, run, i, j);
    if id in TableAt(t, run[..i]) {
      assert Newer(TableAt(t, run[..i])[id], TableAt(t, run[..j])[id]);
    }
  }

  /** A caller that does not look ahead and loses learns a strictly greater version. */
  lemma PgLoserLearnsNewerVersion(t: map<string, Mandate>, run: seq<Statement>, i: nat, j: nat, id: string,
                                  expected: int, state: Label)
    requires IsCall(run, i, j, id, expected, state)
    requires id in TableAt(t, run[..i]) && expected <= TableAt(t, run[..i])[id].version
    ensures var out := CallOutcome(t, run, i, j, id, expected, state);
      !out.Applied? ==>
        out.Conflict? && expected < out.currentVersion && FailsAtOnce(t, run, i, j, id, expected, state, out)
  {
    TableGrows(t, run, i, j);
    assert Newer(TableAt(t, run[..i])[id], TableAt(t, run[..j])[id]);
    if !CallOutcome(t, run, i, j, id, expected, state).Applied? {
      PgFailureRefines(t, run, i, j, id, expected, state);
    }
  }

  /** The odd answer is real: the row is inserted between the two statements. */
  lemma PgOddAnswerHappens()
    ensures var run := [UpdateWhere("m", 1, Reserved), InsertRow("m", Issued), SelectRow("m")];
      CallOutcome(map[], run, 0, 2, "m", 1, Reserved) == Conflict(1)
  {
    var run := [UpdateWhere("m", 1, Reserved), InsertRow("m", Issued), SelectRow("m")];
    assert run[..2][..1] == [UpdateWhere("m", 1, Reserved)];
    assert run[..2][..1][..0] == run[..0] == [];
    assert TableAt(map[], run[..0]) == map[];
    assert TableAt(map[], run[..2][..1]) == map[];
  }

  // ----- The immutable put

  /** A `put` by any caller; its INSERT … ON CONFLICT DO NOTHING is the only statement that writes. */
  datatype Write = Write(id: string, bytes: string)

  function InsertIfAbsent(o: map<string, string>, w: Write): (map<string, string>, bool) {
    if w.id in o then (o, false) else (o[w.id := w.bytes], true)
  }

  function ObjectsAt(o: map<string, string>, run: seq<Write>): map<string, string> {
    if run == [] then o else InsertIfAbsent(ObjectsAt(o, run[..|run| - 1]), run[|run| - 1]).0
  }

  lemma {:induction false} ObjectsStay(o: map<string, string>, run: seq<Write>, i: nat, id: string)
    requires i <= |run| && id in ObjectsAt(o, run[..i])
    ensures id in ObjectsAt(o, run) && ObjectsAt(o, run)[id] == ObjectsAt(o, run[..i])[id]
  {
    if i == |run| {
      assert run[..i] == run;
    } else {
      assert run[..|run| - 1][..i] == run[..i];
      ObjectsStay(o, run[..|run| - 1], i, id);
    }
  }

  /**
   Whatever is written between its INSERT (write i) and its SELECT (at the end of the run), the call
   answers and does what the one-step put does at the INSERT, and its SELECT always finds a row.
   */
  lemma PgPutRefines(o: map<string, string>, run: seq<Write>, i: nat)
    requires i < |run| && run[i].id != ""
    ensures var before, w := ObjectsAt(o, run[..i]), run[i];
      var inserted := InsertIfAbsent(before, w).1;
      && w.id in ObjectsAt(o, run)
      && Put(before, w.id, w.bytes) == (ObjectsAt(o, run[..i + 1]), inserted || ObjectsAt(o, run)[w.id] == w.bytes)
  {
    assert run[..i + 1][..i] == run[..i];
    ObjectsStay(o, run, i + 1, run[i].id);
  }

  // ----- The audit log read backwards

  function Reversed<T>(s: seq<T>): seq<T> {
    seq(|s|, i requires 0 <= i < |s| => s[|s| - 1 - i])
  }

  /** `ORDER BY id DESC LIMIT n`: the newest rows first. */
  function NewestFirst<T>(rows: seq<T>, limit: nat): seq<T> {
    var all := Reversed(rows);
    if limit < |all| then all[..limit] else all
  }

  /** Reversing the descending page gives the in-memory answer: the last `limit` events in insertion order. */
  lemma PgRecentIsSuffix<T>(rows: seq<T>, limit: nat)
    ensures Reversed(NewestFirst(rows, limit)) == rows[if limit <= |rows| then |rows| - limit else 0..]
  {
  }
}
