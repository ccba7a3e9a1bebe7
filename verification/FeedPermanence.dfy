/** What was published stays published: manifests never change, and when a longer list keeps the earlier exports. */
module FeedPermanence {
  import opened Text
  import opened Records
  import opened Stores
  import opened Machine
  import opened Growth
  import opened Evidence
  import opened Feed

  // ----- Manifests

  lemma NodesStay(a: map<string, Node>, b: map<string, Node>, refs: seq<string>)
    requires Extends(a, b) && Resolves(a, refs)
    ensures Resolves(b, refs) && NodesOf(b, refs) == NodesOf(a, refs)
  {
  }

  // An abandonment receipt names a gap that no evidence node is ever filed under.
  lemma AbandonmentNeverResolves(s: Stores, r: Receipt, k: string)
    requires NodesNamed(s) && FromAbandonment(s, k, r)
    ensures !Resolves(s.nodes, r.gaps)
  {
    assert r.gaps[0] == "target_outcome";
    assert "target_outcome"[0] != "ev-"[0];
  }

  lemma ManifestStays(s: Stores, t: Stores, k: string)
    requires Grows(s, t) && NodesNamed(t) && k in s.receipts && ReceiptHolds(s, k) && ReceiptHolds(t, k)
    ensures ManifestOf(t.receipts, t.nodes, k) == ManifestOf(s.receipts, s.nodes, k)
    ensures ManifestOf(s.receipts, s.nodes, k).Some? <==> FromWebhook(s, k, s.receipts[k])
  {
    var r := s.receipts[k];
    if FromWebhook(s, k, r) {
      NodesStay(s.nodes, t.nodes, r.dispatchRefs);
      NodesStay(s.nodes, t.nodes, r.targetRefs);
      NodesStay(s.nodes, t.nodes, r.gaps);
    } else {
      NodesNamedBack(s, t);
      AbandonmentNeverResolves(s, r, k);
      assert FromAbandonment(t, k, r) by { KindStays(s, t, k); }
      AbandonmentNeverResolves(t, r, k);
    }
  }

  lemma NodesNamedBack(s: Stores, t: Stores)
    requires Grows(s, t) && NodesNamed(t)
    ensures NodesNamed(s)
  {
  }

  lemma KindStays(s: Stores, t: Stores, k: string)
    requires Grows(s, t) && k in s.receipts && FromAbandonment(s, k, s.receipts[k]) && ReceiptHolds(t, k)
    ensures FromAbandonment(t, k, s.receipts[k])
  {
  }

  /**
   From the moment a receipt is stored, in any run with any versions and crashes: a webhook receipt
   always has the same manifest, and an abandonment receipt never has one.
   */
  lemma ManifestIsPermanent(lib: Library, steps: seq<Step>, n: nat, k: string)
    requires n <= |steps| && k in Reach(lib, steps[..n]).s.receipts
    ensures var s, t := Reach(lib, steps[..n]).s, Reach(lib, steps).s;
      && ManifestOf(t.receipts, t.nodes, k) == ManifestOf(s.receipts, s.nodes, k)
      && (ManifestOf(s.receipts, s.nodes, k).Some? <==> s.receipts[k].outcome != Unknown)
  {
    var s, t := Reach(lib, steps[..n]).s, Reach(lib, steps).s;
    EvidenceAlways(lib, steps[..n]);
    EvidenceAlways(lib, steps);
    RunGrows(lib, steps, n);
    assert ReceiptHolds(s, k) && ReceiptHolds(t, k);
    ManifestStays(s, t, k);
  }

  /** A published manifest holds one claim of Piteka's, one observation of the provider's, and no gap. */
  lemma {:induction false} ManifestAttribution(lib: Library, steps: seq<Step>, k: string)
    requires ManifestOf(Reach(lib, steps).s.receipts, Reach(lib, steps).s.nodes, k).Some?
    ensures var m := ManifestOf(Reach(lib, steps).s.receipts, Reach(lib, steps).s.nodes, k).value;
      && |m.dispatch| == 1 && m.dispatch[0].source == Piteka
      && |m.target| == 1 && m.target[0].source == Provider("github") && m.gaps == []
  {
    var s := Reach(lib, steps).s;
    EvidenceAlways(lib, steps);
    assert ReceiptHolds(s, k);
    GrowsReflexive(s);
    ManifestStays(s, s, k);
  }

  // ----- The ordered list

  predicate Earlier(a: Listed, b: Listed) {
    a.createdAt < b.createdAt || (a.createdAt == b.createdAt && Before(a.id, b.id))
  }

  /** `ORDER BY created_at, receipt_id_hex`. */
  ghost predicate Sorted(l: seq<Listed>) {
    forall i, j :: 0 <= i < j < |l| ==> Earlier(l[i], l[j])
  }

  /** `list_ids_ordered`: every stored receipt, once, in order. */
  ghost predicate Lists(receipts: map<string, Receipt>, l: seq<Listed>) {
    && Sorted(l)
    && (forall k :: 0 <= k < |l| ==> l[k].id in receipts && l[k].createdAt == receipts[l[k].id].createdAt)
    && (forall id :: id in receipts ==> Listed(id, receipts[id].createdAt) in l)
  }

  lemma EarlierIsStrict(a: Listed, b: Listed)
    ensures !(Earlier(a, b) && Earlier(b, a)) && !Earlier(a, a)
  {
    BeforeTotal(a.id, b.id);
    BeforeTotal(a.id, a.id);
  }

  /** A sorted list is a prefix of a larger sorted list exactly when everything new comes after everything old. */
  lemma PrefixIffNewIsLater(old': seq<Listed>, new': seq<Listed>)
    requires Sorted(old') && Sorted(new') && forall x :: x in old' ==> x in new'
    ensures old' <= new' <==> forall x, y :: x in new' && x !in old' && y in old' ==> Earlier(y, x)
  {
    if old' <= new' {
      forall x, y | x in new' && x !in old' && y in old' ensures Earlier(y, x) {
        var i :| 0 <= i < |new'| && new'[i] == x;
        var j :| 0 <= j < |old'| && old'[j] == y;
        if i < |old'| {
          assert false;
        }
        assert new'[j] == y;
      }
    }
    if forall x, y :: x in new' && x !in old' && y in old' ==> Earlier(y, x) {
      AgreeUpTo(old', new', |old'|);
    }
  }

  lemma {:induction false} AgreeUpTo(old': seq<Listed>, new': seq<Listed>, n: nat)
    requires Sorted(old') && Sorted(new') && (forall x :: x in old' ==> x in new') && n <= |old'|
    requires forall x, y :: x in new' && x !in old' && y in old' ==> Earlier(y, x)
    ensures n <= |new'| && old'[..n] == new'[..n]
  {
    if 0 < n {
      var i := n - 1;
      AgreeUpTo(old', new', i);
      assert old'[i] in new';
      var p :| 0 <= p < |new'| && new'[p] == old'[i];
      NotBefore(old', new', i, p);
      if i < p {
        var x := new'[i];
        assert Earlier(x, old'[i]);
        EarlierIsStrict(x, old'[i]);
        if x in old' {
          var j :| 0 <= j < |old'| && old'[j] == x;
          NotBefore(new', old', i, j);
          EarlierIsStrict(x, x);
        }
      }
    }
  }

  // A sorted list has no entry twice, so what stands at i in one list stands at i or later in the other.
  lemma NotBefore(a: seq<Listed>, b: seq<Listed>, i: nat, p: nat)
    requires Sorted(a) && i < |a| && i <= |b| && p < |b| && a[..i] == b[..i] && b[p] == a[i]
    ensures i <= p
  {
    if p < i {
      assert a[p] == a[..i][p] == b[..i][p];
      EarlierIsStrict(a[p], a[i]);
    }
  }

  // ----- Exports

  lemma {:induction false} PublishedIsSorted(receipts: map<string, Receipt>, nodes: map<string, Node>, l: seq<Listed>)
    requires Sorted(l)
    ensures Sorted(Published(receipts, nodes, l))
    ensures forall x :: x in Published(receipts, nodes, l) <==> x in l && Exportable(receipts, nodes, x.id)
  {
    if l != [] {
      var n := |l| - 1;
      PublishedIsSorted(receipts, nodes, l[..n]);
      assert forall x :: x in l <==> x in l[..n] || x == l[n];
      forall x | x in l[..n] ensures Earlier(x, l[n]) {
        var i :| 0 <= i < n && l[i] == x;
      }
    }
  }

  ghost predicate NewExportsAreLater(s: Stores, t: Stores, old': seq<Listed>, new': seq<Listed>) {
    forall x, y ::
      && x in new' && x !in old' && Exportable(t.receipts, t.nodes, x.id)
      && y in old' && Exportable(s.receipts, s.nodes, y.id)
      ==> Earlier(y, x)
  }

  /**
   Two pulls of one run, the second later. Every earlier export keeps its sequence number, emission
   time and payload exactly when each newly exportable receipt sorts after all those exported before.
   */
  lemma ExportsStayIffAppended(lib: Library, steps: seq<Step>, n: nat, old': seq<Listed>, new': seq<Listed>)
    requires n <= |steps|
    requires Lists(Reach(lib, steps[..n]).s.receipts, old') && Lists(Reach(lib, steps).s.receipts, new')
    ensures var s, t := Reach(lib, steps[..n]).s, Reach(lib, steps).s;
      Exports(s.receipts, s.nodes, old') <= Exports(t.receipts, t.nodes, new') <==> NewExportsAreLater(s, t, old', new')
  {
    var s, t := Reach(lib, steps[..n]).s, Reach(lib, steps).s;
    RunGrows(lib, steps, n);
    forall x | x in old' ensures ManifestOf(s.receipts, s.nodes, x.id) == ManifestOf(t.receipts, t.nodes, x.id) {
      ManifestIsPermanent(lib, steps, n, x.id);
    }
    OldAreListed(s.receipts, t.receipts, old', new');
    StayIffAppended(s, t, old', new');
  }

  lemma OldAreListed(r: map<string, Receipt>, r': map<string, Receipt>, old': seq<Listed>, new': seq<Listed>)
    requires Extends(r, r') && Lists(r, old') && Lists(r', new')
    ensures forall x :: x in old' ==> x in new'
  {
    forall x | x in old' ensures x in new' {
      assert x == Listed(x.id, r'[x.id].createdAt);
    }
  }

  lemma {:induction false} StayIffAppended(s: Stores, t: Stores, old': seq<Listed>, new': seq<Listed>)
    requires Lists(s.receipts, old') && Lists(t.receipts, new') && forall x :: x in old' ==> x in new'
    requires forall x :: x in old' ==> ManifestOf(s.receipts, s.nodes, x.id) == ManifestOf(t.receipts, t.nodes, x.id)
    ensures Exports(s.receipts, s.nodes, old') <= Exports(t.receipts, t.nodes, new')
      <==> NewExportsAreLater(s, t, old', new')
  {
    var p, q := Published(s.receipts, s.nodes, old'), Published(t.receipts, t.nodes, new');
    PublishedIsSorted(s.receipts, s.nodes, old');
    PublishedIsSorted(t.receipts, t.nodes, new');
    forall x | x in old' ensures Exportable(s.receipts, s.nodes, x.id) <==> Exportable(t.receipts, t.nodes, x.id) {
      assert ManifestOf(s.receipts, s.nodes, x.id) == ManifestOf(t.receipts, t.nodes, x.id);
    }
    PrefixIffNewIsLater(p, q);
    ExportsFollowPublished(s, t, old', new');
  }

  lemma {:induction false} ExportsFollowPublished(s: Stores, t: Stores, old': seq<Listed>, new': seq<Listed>)
    requires Lists(s.receipts, old') && Lists(t.receipts, new') && forall x :: x in old' ==> x in new'
    requires forall x :: x in old' ==> ManifestOf(s.receipts, s.nodes, x.id) == ManifestOf(t.receipts, t.nodes, x.id)
    ensures Exports(s.receipts, s.nodes, old') <= Exports(t.receipts, t.nodes, new')
      <==> Published(s.receipts, s.nodes, old') <= Published(t.receipts, t.nodes, new')
  {
    hide Exports, Published, Clock, Times, Sorted;
    var e, f := Exports(s.receipts, s.nodes, old'), Exports(t.receipts, t.nodes, new');
    var p, q := Published(s.receipts, s.nodes, old'), Published(t.receipts, t.nodes, new');
    ExportsAreNumbered(s.receipts, s.nodes, old');
    ExportsAreNumbered(t.receipts, t.nodes, new');
    PublishedIsSorted(s.receipts, s.nodes, old');
    PublishedIsSorted(t.receipts, t.nodes, new');
    if p <= q {
      PrefixStampsAgree(p, q);
      assert forall k :: 0 <= k < |p| ==> p[k] in p && p[k] == q[k];
      NumberedAlike(e, f, p, q);
    }
    if e <= f {
      forall k | 0 <= k < |p| ensures p[k] == q[k] {
        assert e[k] == f[k] && p[k] in p && q[k] in q;
        SameIdSameEntry(s.receipts, t.receipts, old', new', p[k], q[k]);
      }
    }
  }

  lemma NumberedAlike(e: seq<Export>, f: seq<Export>, p: seq<Listed>, q: seq<Listed>)
    requires |e| == |p| && |f| == |q| && |p| <= |q|
    requires forall k :: 0 <= k < |e| ==>
      e[k].sequence == f[k].sequence && e[k].id == f[k].id && e[k].emittedAt == f[k].emittedAt
          && e[k].payload == f[k].payload
    ensures e <= f
  {
  }

  lemma PrefixStampsAgree(p: seq<Listed>, q: seq<Listed>)
    requires p <= q
    ensures forall k :: 0 <= k < |p| ==> Clock(Times(p))[k] == Clock(Times(q))[k]
  {
    assert Times(q)[..|p|] == Times(p);
    ClockPrefix(Times(q), |p|);
    assert forall k :: 0 <= k < |p| ==> Clock(Times(q))[k] == Clock(Times(q))[..|p|][k];
  }

  lemma SameIdSameEntry(r: map<string, Receipt>, r': map<string, Receipt>, old': seq<Listed>, new': seq<Listed>,
                        x: Listed, y: Listed)
    requires Lists(r, old') && Lists(r', new') && (forall z :: z in old' ==> z in new')
    requires x in old' && y in new' && x.id == y.id
    ensures x == y
  {
    assert x in new';
  }
}
