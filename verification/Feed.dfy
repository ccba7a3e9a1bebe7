/** The evidence feed's exports (src/bin/evidence_feed_server.rs, crates/piteka-application/src/bundle_export.rs). */
module Feed {
  import opened Records

  // ----- A receipt's manifest

  /** What the manifest's JSON text is computed from. */
  datatype Manifest = Manifest(receipt: Receipt, dispatch: seq<Node>, target: seq<Node>, gaps: seq<Node>)

  datatype Fetched = Complete(found: seq<Node>) | Incomplete(missing: seq<string>)

  ghost predicate Resolves(nodes: map<string, Node>, refs: seq<string>) {
    forall i :: 0 <= i < |refs| ==> refs[i] in nodes
  }

  function NodesOf(nodes: map<string, Node>, refs: seq<string>): seq<Node>
    requires forall i :: 0 <= i < |refs| ==> refs[i] in nodes
  {
    seq(|refs|, i requires 0 <= i < |refs| => nodes[refs[i]])
  }

  /** `fetch_nodes`: all of them in order, or the ids that are missing. */
  method FetchNodes(nodes: map<string, Node>, refs: seq<string>) returns (f: Fetched)
    ensures f.Complete? <==> Resolves(nodes, refs)
    ensures f.Complete? ==> f.found == NodesOf(nodes, refs)
    ensures f.Incomplete? ==> f.missing != [] && forall id :: id in f.missing <==> id in refs && id !in nodes
  {
    var found, missing := [], [];
    for i := 0 to |refs|
      invariant missing == [] ==> Resolves(nodes, refs[..i]) && found == NodesOf(nodes, refs[..i])
      invariant forall id :: id in missing <==> id in refs[..i] && id !in nodes
    {
      assert refs[..i + 1] == refs[..i] + [refs[i]];
      if refs[i] in nodes {
        found := found + [nodes[refs[i]]];
      } else {
        missing := missing + [refs[i]];
        assert refs[i] in missing;
      }
    }
    assert refs[..|refs|] == refs;
    if missing == [] {
      return Complete(found);
    }
    assert missing[0] in missing;
    return Incomplete(missing);
  }

  ghost predicate Exportable(receipts: map<string, Receipt>, nodes: map<string, Node>, id: string) {
    && id in receipts && Resolves(nodes, receipts[id].dispatchRefs) && Resolves(nodes, receipts[id].targetRefs)
    && Resolves(nodes, receipts[id].gaps)
  }

  ghost function ManifestOf(receipts: map<string, Receipt>, nodes: map<string, Node>, id: string): Option<Manifest> {
    if Exportable(receipts, nodes, id) then
      var r := receipts[id];
      Some(Manifest(r, NodesOf(nodes, r.dispatchRefs), NodesOf(nodes, r.targetRefs), NodesOf(nodes, r.gaps)))
    else None
  }

  /** `export_manifest_bytes`: an unknown receipt and missing evidence are errors. */
  method AssembleManifest(receipts: map<string, Receipt>, nodes: map<string, Node>, id: string)
    returns (m: Option<Manifest>)
    ensures m == ManifestOf(receipts, nodes, id)
  {
    if id !in receipts {
      return None;
    }
    var dispatch := FetchNodes(nodes, receipts[id].dispatchRefs);
    if dispatch.Incomplete? {
      return None;
    }
    var target := FetchNodes(nodes, receipts[id].targetRefs);
    if target.Incomplete? {
      return None;
    }
    var gaps := FetchNodes(nodes, receipts[id].gaps);
    if gaps.Incomplete? {
      return None;
    }
    return Some(Manifest(receipts[id], dispatch.found, target.found, gaps.found));
  }

  // ----- Exports

  datatype Listed = Listed(id: string, createdAt: int)

  datatype Export = Export(sequence: int, id: string, emittedAt: int, payload: Manifest)

  function Max(a: int, b: int): int { if a < b then b else a }

  function LastEmitted(exports: seq<Export>): int {
    if exports == [] then 0 else exports[|exports| - 1].emittedAt
  }

  ghost function Exports(receipts: map<string, Receipt>, nodes: map<string, Node>, listed: seq<Listed>): seq<Export> {
    if listed == [] then []
    else
      var before, last := Exports(receipts, nodes, listed[..|listed| - 1]), listed[|listed| - 1];
      WithNext(before, last, ManifestOf(receipts, nodes, last.id))
  }

  ghost function WithNext(before: seq<Export>, next: Listed, payload: Option<Manifest>): seq<Export> {
    match payload
    case None => before
    case Some(m) => before + [Export(|before| + 1, next.id, Max(Max(next.createdAt, 0), LastEmitted(before) + 1), m)]
  }

  lemma ExportsSnoc(receipts: map<string, Receipt>, nodes: map<string, Node>, listed: seq<Listed>, i: nat)
    requires i < |listed|
    ensures Exports(receipts, nodes, listed[..i + 1])
      == WithNext(Exports(receipts, nodes, listed[..i]), listed[i], ManifestOf(receipts, nodes, listed[i].id))
  {
    hide ManifestOf;
    assert listed[..i + 1][..i] == listed[..i];
  }

  lemma NoneListed(receipts: map<string, Receipt>, nodes: map<string, Node>)
    ensures Exports(receipts, nodes, []) == []
  {
  }

  const TWO63 := 0x8000_0000_0000_0000
  const TWO64 := 0x1_0000_0000_0000_0000

  /** `build_exports`. Its `u64` clock and sequence never overflow for fewer than 2^63 receipts. */
  method BuildExports(receipts: map<string, Receipt>, nodes: map<string, Node>, listed: seq<Listed>)
    returns (exports: seq<Export>)
    requires |listed| < TWO63 && forall i :: 0 <= i < |listed| ==> listed[i].createdAt < TWO63
    ensures exports == Exports(receipts, nodes, listed)
    ensures forall k :: 0 <= k < |exports| ==> 0 < exports[k].emittedAt < TWO64 && 0 < exports[k].sequence < TWO64
  {
    hide ManifestOf, Exports;
    exports := [];
    var lastEmitted := 0;
    NoneListed(receipts, nodes);
    assert listed[..0] == [];
    for i := 0 to |listed|
      invariant exports == Exports(receipts, nodes, listed[..i]) && lastEmitted == LastEmitted(exports)
      invariant |exports| <= i && 0 <= lastEmitted < TWO63 + i
      invariant forall k :: 0 <= k < |exports| ==> 0 < exports[k].emittedAt < TWO64 && 0 < exports[k].sequence < TWO64
    {
      ExportsSnoc(receipts, nodes, listed, i);
      var payload := AssembleManifest(receipts, nodes, listed[i].id);
      if payload.None? {
        continue;
      }
      var emittedAt := Max(Max(listed[i].createdAt, 0), lastEmitted + 1);
      lastEmitted := emittedAt;
      exports := exports + [Export(|exports| + 1, listed[i].id, emittedAt, payload.value)];
    }
    assert listed[..|listed|] == listed;
  }

  /** The listed receipts that are exported. */
  ghost function Published(receipts: map<string, Receipt>, nodes: map<string, Node>, listed: seq<Listed>): seq<Listed> {
    if listed == [] then []
    else
      var last := listed[|listed| - 1];
      Published(receipts, nodes, listed[..|listed| - 1]) + if Exportable(receipts, nodes, last.id) then [last] else []
  }

  // ----- The emission clock

  /** The clock over the creation times of the exported receipts. */
  function Clock(created: seq<int>): (clock: seq<int>)
    ensures |clock| == |created|
  {
    if created == [] then []
    else
      var before := Clock(created[..|created| - 1]);
      before + [Max(Max(created[|created| - 1], 0), (if before == [] then 0 else before[|before| - 1]) + 1)]
  }

  function Times(listed: seq<Listed>): seq<int> {
    seq(|listed|, i requires 0 <= i < |listed| => listed[i].createdAt)
  }

  /** Export k of the list is receipt k of the published ones. */
  ghost predicate IsExportOf(receipts: map<string, Receipt>, nodes: map<string, Node>, e: Export, k: nat,
                             published: seq<Listed>)
    requires k < |published|
  {
    && e.sequence == k + 1 && e.id == published[k].id && Some(e.payload) == ManifestOf(receipts, nodes, published[k].id)
    && e.emittedAt == Clock(Times(published))[k]
  }

  ghost predicate AreExportsOf(receipts: map<string, Receipt>, nodes: map<string, Node>, exports: seq<Export>,
                               published: seq<Listed>) {
    |exports| == |published| && forall k :: 0 <= k < |exports| ==> IsExportOf(receipts, nodes, exports[k], k, published)
  }

  /** Exports are the published receipts in order, numbered from 1, stamped by the clock. */
  lemma {:induction false} ExportsAreNumbered(receipts: map<string, Receipt>, nodes: map<string, Node>,
                                              listed: seq<Listed>)
    ensures AreExportsOf(receipts, nodes, Exports(receipts, nodes, listed), Published(receipts, nodes, listed))
  {
    if listed != [] {
      hide AreExportsOf, Clock;
      var n := |listed| - 1;
      ExportsAreNumbered(receipts, nodes, listed[..n]);
      if Exportable(receipts, nodes, listed[n].id) {
        OneMoreExport(receipts, nodes, Exports(receipts, nodes, listed[..n]), Published(receipts, nodes, listed[..n]),
                      listed[n]);
      } else {
        assert Published(receipts, nodes, listed[..n]) + [] == Published(receipts, nodes, listed[..n]);
        assert Published(receipts, nodes, listed) == Published(receipts, nodes, listed[..n]);
        assert Exports(receipts, nodes, listed) == Exports(receipts, nodes, listed[..n]);
      }
    }
  }

  lemma OneMoreExport(receipts: map<string, Receipt>, nodes: map<string, Node>, exports: seq<Export>,
                      published: seq<Listed>, next: Listed)
    requires AreExportsOf(receipts, nodes, exports, published) && Exportable(receipts, nodes, next.id)
    ensures AreExportsOf(receipts, nodes, WithNext(exports, next, ManifestOf(receipts, nodes, next.id)),
                         published + [next])
  {
    hide ManifestOf, Clock;
    var n := |published|;
    var more, longer := WithNext(exports, next, ManifestOf(receipts, nodes, next.id)), published + [next];
    StampsExtend(published, next);
    ExportableHasManifest(receipts, nodes, next.id);
    forall k | 0 <= k < |more| ensures IsExportOf(receipts, nodes, more[k], k, longer) {
      if k < n {
        assert IsExportOf(receipts, nodes, exports[k], k, published);
      } else if 0 < n {
        assert IsExportOf(receipts, nodes, exports[n - 1], n - 1, published);
      }
    }
  }

  lemma ExportableHasManifest(receipts: map<string, Receipt>, nodes: map<string, Node>, id: string)
    ensures Exportable(receipts, nodes, id) <==> ManifestOf(receipts, nodes, id).Some?
  {
  }

  lemma StampsExtend(published: seq<Listed>, next: Listed)
    ensures var n, before, after := |published|, Clock(Times(published)), Clock(Times(published + [next]));
      after == before + [Max(Max(next.createdAt, 0), (if n == 0 then 0 else before[n - 1]) + 1)]
  {
    assert Times(published + [next])[..|published|] == Times(published);
  }

  lemma {:induction false} ClockSnoc(created: seq<int>, k: nat)
    requires k < |created|
    ensures Clock(created)[k] == Max(Max(created[k], 0), (if k == 0 then 0 else Clock(created)[k - 1]) + 1)
  {
    ClockPrefix(created, k + 1);
    ClockPrefix(created, k);
    assert created[..k + 1][..k] == created[..k];
  }

  // A later receipt never changes an earlier stamp.
  lemma {:induction false} ClockPrefix(created: seq<int>, k: nat)
    requires k <= |created|
    ensures Clock(created)[..k] == Clock(created[..k])
  {
    if k == |created| {
      assert created[..k] == created;
    } else {
      assert created[..|created| - 1][..k] == created[..k];
      ClockPrefix(created[..|created| - 1], k);
    }
  }

  /** Strictly increasing, positive, and never before the receipt's own time. */
  ghost predicate Admissible(created: seq<int>, clock: seq<int>) {
    && |clock| == |created|
    && (forall k :: 0 <= k < |clock| ==> 0 < clock[k] && created[k] <= clock[k])
    && (forall k :: 0 < k < |clock| ==> clock[k - 1] < clock[k])
  }

  /** The clock is admissible, and no admissible clock is anywhere earlier. */
  lemma {:induction false} ClockIsLeast(created: seq<int>)
    ensures Admissible(created, Clock(created))
    ensures forall other, k :: Admissible(created, other) && 0 <= k < |created| ==> Clock(created)[k] <= other[k]
  {
    forall k | 0 <= k < |created|
      ensures 0 < Clock(created)[k] && created[k] <= Clock(created)[k]
        && (0 < k ==> Clock(created)[k - 1] < Clock(created)[k])
    {
      ClockSnoc(created, k);
      ClockAbove(created, k);
    }
    forall other, k | Admissible(created, other) && 0 <= k < |created| ensures Clock(created)[k] <= other[k] {
      ClockBelow(created, other, k);
    }
  }

  lemma {:induction false} ClockBelow(created: seq<int>, other: seq<int>, k: nat)
    requires Admissible(created, other) && k < |created|
    ensures Clock(created)[k] <= other[k]
  {
    ClockSnoc(created, k);
    if 0 < k {
      ClockBelow(created, other, k - 1);
      assert other[k - 1] < other[k];
    }
  }

  lemma {:induction false} ClockAbove(created: seq<int>, k: nat)
    requires k < |created|
    ensures k + 1 <= Clock(created)[k]
    ensures forall j :: 0 <= j <= k ==> created[j] + (k - j) <= Clock(created)[k]
  {
    ClockSnoc(created, k);
    if 0 < k {
      ClockAbove(created, k - 1);
    }
  }

  /** In closed form: entry k is max(k + 1, max over j <= k of created[j] + (k - j)). */
  lemma {:induction false} ClockClosedForm(created: seq<int>, k: nat)
    requires k < |created|
    ensures k + 1 <= Clock(created)[k]
    ensures forall j :: 0 <= j <= k ==> created[j] + (k - j) <= Clock(created)[k]
    ensures Clock(created)[k] == k + 1 || exists j :: 0 <= j <= k && Clock(created)[k] == created[j] + (k - j)
  {
    ClockAbove(created, k);
    ClockSnoc(created, k);
    if 0 < k {
      ClockClosedForm(created, k - 1);
      if Clock(created)[k] == Clock(created)[k - 1] + 1 && Clock(created)[k - 1] != k {
        var j :| 0 <= j <= k - 1 && Clock(created)[k - 1] == created[j] + (k - 1 - j);
        assert Clock(created)[k] == created[j] + (k - j);
      } else if Clock(created)[k] == created[k] {
        assert Clock(created)[k] == created[k] + (k - k);
      }
    } else if Clock(created)[k] != 1 {
      assert Clock(created)[k] == created[k] + (k - k);
    }
  }
}
