/** A client that pulls the feed at several moments of one run. */
module FeedRuns {
  import opened Records
  import opened Machine
  import opened Feed
  import opened FeedPaging
  import opened FeedPermanence

  /** One pull: when, what `list_ids_ordered` lists then, and the limit asked for. */
  datatype Visit = Visit(at: nat, listed: seq<Listed>, limit: nat)

  /** The moments do not go back, and each list is the one of its moment. */
  ghost predicate Visits(lib: Library, steps: seq<Step>, visits: seq<Visit>) {
    && (forall k :: 0 <= k < |visits| ==>
          visits[k].at <= |steps| && Lists(Reach(lib, steps[..visits[k].at]).s.receipts, visits[k].listed))
    && (forall k :: 0 < k < |visits| ==> visits[k - 1].at <= visits[k].at)
  }

  ghost function FeedAt(lib: Library, steps: seq<Step>, v: Visit): seq<Export>
    requires v.at <= |steps|
  {
    var s := Reach(lib, steps[..v.at]).s;
    Exports(s.receipts, s.nodes, v.listed)
  }

  ghost function PullsOf(lib: Library, steps: seq<Step>, visits: seq<Visit>): (pulls: seq<Pull>)
    requires forall k :: 0 <= k < |visits| ==> visits[k].at <= |steps|
    ensures |pulls| == |visits|
  {
    seq(|visits|, k requires 0 <= k < |visits| => Pull(FeedAt(lib, steps, visits[k]), visits[k].limit))
  }

  /** Whatever became exportable between two pulls sorts after all that was exported before. */
  ghost predicate Appended(lib: Library, steps: seq<Step>, u: Visit, v: Visit) {
    && u.at <= |steps| && v.at <= |steps|
    && NewExportsAreLater(Reach(lib, steps[..u.at]).s, Reach(lib, steps[..v.at]).s, u.listed, v.listed)
  }

  ghost predicate AllAppended(lib: Library, steps: seq<Step>, visits: seq<Visit>) {
    forall k :: 0 < k < |visits| ==> Appended(lib, steps, visits[k - 1], visits[k])
  }

  lemma ExportsNumbered(receipts: map<string, Receipt>, nodes: map<string, Node>, listed: seq<Listed>)
    ensures Numbered(Exports(receipts, nodes, listed))
  {
    ExportsAreNumbered(receipts, nodes, listed);
    var e, p := Exports(receipts, nodes, listed), Published(receipts, nodes, listed);
    assert forall k :: 0 <= k < |e| ==> IsExportOf(receipts, nodes, e[k], k, p);
  }

  // Between two pulls of one run.
  lemma VisitsCompare(lib: Library, steps: seq<Step>, u: Visit, v: Visit)
    requires u.at <= v.at <= |steps|
    requires Lists(Reach(lib, steps[..u.at]).s.receipts, u.listed)
    requires Lists(Reach(lib, steps[..v.at]).s.receipts, v.listed)
    ensures FeedAt(lib, steps, u) <= FeedAt(lib, steps, v) <==> Appended(lib, steps, u, v)
  {
    hide Reach, Lists, Exports, NewExportsAreLater;
    assert steps[..v.at][..u.at] == steps[..u.at];
    ExportsStayIffAppended(lib, steps[..v.at], u.at, u.listed, v.listed);
  }

  lemma PullsSnoc(lib: Library, steps: seq<Step>, visits: seq<Visit>)
    requires visits != [] && forall k :: 0 <= k < |visits| ==> visits[k].at <= |steps|
    ensures var n := |visits| - 1;
      var pulls, before := PullsOf(lib, steps, visits), PullsOf(lib, steps, visits[..n]);
      && pulls[..n] == before && pulls[n].feed == FeedAt(lib, steps, visits[n])
      && LatestFeed(before) == if n == 0 then [] else FeedAt(lib, steps, visits[n - 1])
  {
    hide FeedAt;
  }

  /** The feeds of a run grow at their end exactly when everything new was always appended. */
  lemma {:induction false} GrowsIffAppended(lib: Library, steps: seq<Step>, visits: seq<Visit>)
    requires Visits(lib, steps, visits)
    ensures GrowsAtEnd(PullsOf(lib, steps, visits)) <==> AllAppended(lib, steps, visits)
  {
    if visits != [] {
      hide Reach, Lists, FeedAt, Appended, AllAppended, Numbered, PullsOf, LatestFeed;
      var n := |visits| - 1;
      GrowsIffAppended(lib, steps, visits[..n]);
      PullsSnoc(lib, steps, visits);
      FeedIsNumbered(lib, steps, visits[n]);
      if 0 < n {
        VisitsCompare(lib, steps, visits[n - 1], visits[n]);
      }
      AppendedSnoc(lib, steps, visits);
    }
  }

  lemma FeedIsNumbered(lib: Library, steps: seq<Step>, v: Visit)
    requires v.at <= |steps|
    ensures Numbered(FeedAt(lib, steps, v))
  {
    var s := Reach(lib, steps[..v.at]).s;
    ExportsNumbered(s.receipts, s.nodes, v.listed);
  }

  lemma AppendedSnoc(lib: Library, steps: seq<Step>, visits: seq<Visit>)
    requires visits != []
    ensures var n := |visits| - 1;
      AllAppended(lib, steps, visits) <==>
        AllAppended(lib, steps, visits[..n]) && (0 < n ==> Appended(lib, steps, visits[n - 1], visits[n]))
  {
    hide Appended;
    var n := |visits| - 1;
    if AllAppended(lib, steps, visits[..n]) && (0 < n ==> Appended(lib, steps, visits[n - 1], visits[n])) {
      forall k | 0 < k < |visits| ensures Appended(lib, steps, visits[k - 1], visits[k]) {
        assert k < n ==> visits[..n][k - 1] == visits[k - 1] && visits[..n][k] == visits[k];
      }
    }
  }

  /**
   A client of a run in which everything new is appended has received exactly the first exports of the last feed it
   saw, each once, and their numbers are 1, 2, 3, … up to its cursor.
   */
  lemma {:induction false} ClientReceivesFeed(lib: Library, steps: seq<Step>, visits: seq<Visit>)
    requires Visits(lib, steps, visits) && AllAppended(lib, steps, visits) && visits != []
    ensures var (got, cursor) := Received(PullsOf(lib, steps, visits));
      var feed := FeedAt(lib, steps, visits[|visits| - 1]);
      cursor <= |feed| && got == feed[..cursor] && Numbered(got) && |got| == cursor
  {
    hide Reach, Lists, FeedAt, Appended, AllAppended, Received, GrowsAtEnd;
    var pulls := PullsOf(lib, steps, visits);
    GrowsIffAppended(lib, steps, visits);
    ReceivedIsPrefix(pulls);
    ReceivedInOrder(pulls);
  }
}
