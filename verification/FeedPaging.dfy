/** Cursor pagination of the feed, and a client that follows it while it grows. */
module FeedPaging {
  import opened Records
  import opened Feed

  /** Sequence numbers run 1, 2, 3, … as `build_exports` leaves them. */
  ghost predicate Numbered(feed: seq<Export>) {
    forall k :: 0 <= k < |feed| ==> feed[k].sequence == k + 1
  }

  /** `exports.filter(|e| e.sequence > after)`. */
  function After(feed: seq<Export>, after: nat): seq<Export> {
    if feed == [] then []
    else
      var last := feed[|feed| - 1];
      After(feed[..|feed| - 1], after) + if last.sequence > after then [last] else []
  }

  datatype Page = Page(exports: seq<Export>, next: nat)

  /** `serve_feed` once the request is authorised and its limit is in range. */
  function Serve(feed: seq<Export>, after: nat, limit: nat): Option<Page> {
    if limit == 0 || limit > 1024 then None
    else
      var rest := After(feed, after);
      var selected := if limit < |rest| then rest[..limit] else rest;
      var last := if selected == [] then after else selected[|selected| - 1].sequence;
      Some(Page(selected, if last < 0 then 0 else last))
  }

  /** A limit is refused exactly if it is not from 1 to 1024. */
  lemma RefusedIffOutOfRange(feed: seq<Export>, after: nat, limit: nat)
    ensures Serve(feed, after, limit).None? <==> !(1 <= limit <= 1024)
  {
  }

  function Min(a: nat, b: nat): nat { if a < b then a else b }

  lemma SuffixSnoc(feed: seq<Export>, n: nat, k: nat)
    requires |feed| == n + 1 && k <= n
    ensures feed[..n][k..] + [feed[n]] == feed[k..] && feed[..n][n..] == [] == feed[n + 1..]
  {
    assert feed == feed[..n] + [feed[n]];
    assert (feed[..n] + [feed[n]])[k..] == feed[..n][k..] + [feed[n]];
  }

  lemma {:induction false} AfterIsSuffix(feed: seq<Export>, after: nat)
    requires Numbered(feed)
    ensures After(feed, after) == feed[Min(after, |feed|)..]
  {
    if feed != [] {
      var n := |feed| - 1;
      AfterIsSuffix(feed[..n], after);
      SuffixSnoc(feed, n, Min(after, n));
    }
  }

  /** A page is the next stretch of the feed, and its cursor says how far the client now is. */
  lemma PageIsNextStretch(feed: seq<Export>, after: nat, limit: nat)
    requires Numbered(feed) && 0 < limit <= 1024
    ensures var page := Serve(feed, after, limit).value;
      var end := if after < |feed| then Min(after + limit, |feed|) else after;
      page.next == end && page.exports == if after < |feed| then feed[after..end] else []
  {
    hide After;
    AfterIsSuffix(feed, after);
    if after < |feed| {
      var end := Min(after + limit, |feed|);
      var page := Serve(feed, after, limit).value;
      assert page.exports == feed[after..end];
      assert page.exports[|page.exports| - 1] == feed[end - 1];
    }
  }

  // ----- The client

  /** The feed as the client finds it at each pull, and the limit it asks for. */
  datatype Pull = Pull(feed: seq<Export>, limit: nat)

  predicate InRange(limit: nat) { 0 < limit <= 1024 }

  /** The feed only ever grows at its end between pulls. */
  ghost predicate GrowsAtEnd(pulls: seq<Pull>) {
    pulls == [] ||
    var n := |pulls| - 1;
    && GrowsAtEnd(pulls[..n]) && Numbered(pulls[n].feed) && LatestFeed(pulls[..n]) <= pulls[n].feed
  }

  function LatestFeed(pulls: seq<Pull>): seq<Export> {
    if pulls == [] then [] else pulls[|pulls| - 1].feed
  }

  /** A client starts from cursor 0, passes on the returned cursor, and keeps it when its request is refused. */
  function Received(pulls: seq<Pull>): (seq<Export>, nat) {
    if pulls == [] then ([], 0)
    else
      var (got, cursor) := Received(pulls[..|pulls| - 1]);
      match Serve(pulls[|pulls| - 1].feed, cursor, pulls[|pulls| - 1].limit)
      case None => (got, cursor)
      case Some(page) => (got + page.exports, page.next)
  }

  // One pull by a client whose cursor is inside the feed.
  lemma OnePull(pulls: seq<Pull>)
    requires pulls != [] && Numbered(LatestFeed(pulls)) && Received(pulls[..|pulls| - 1]).1 <= |LatestFeed(pulls)|
    ensures var n := |pulls| - 1;
      var feed, before, limit := pulls[n].feed, Received(pulls[..n]).1, pulls[n].limit;
      var after := if InRange(limit) then Min(before + limit, |feed|) else before;
      Received(pulls) == (Received(pulls[..n]).0 + feed[before..after], after)
  {
    hide After;
    var n := |pulls| - 1;
    var (got, before) := Received(pulls[..n]);
    if InRange(pulls[n].limit) {
      PageIsNextStretch(pulls[n].feed, before, pulls[n].limit);
    } else {
      assert got + pulls[n].feed[before..before] == got;
    }
  }

  /** What was received is exactly the feed's first `cursor` entries: consecutive, nothing missing, nothing twice. */
  lemma {:induction false} ReceivedIsPrefix(pulls: seq<Pull>)
    requires GrowsAtEnd(pulls)
    ensures var (got, cursor) := Received(pulls); cursor <= |LatestFeed(pulls)| && got == LatestFeed(pulls)[..cursor]
  {
    if pulls != [] {
      ReceivedIsPrefix(pulls[..|pulls| - 1]);
      Extended(pulls, LatestFeed(pulls[..|pulls| - 1]));
    }
  }

  lemma Extended(pulls: seq<Pull>, earlier: seq<Export>)
    requires pulls != [] && earlier <= LatestFeed(pulls) && Numbered(LatestFeed(pulls))
    requires var (got, cursor) := Received(pulls[..|pulls| - 1]); cursor <= |earlier| && got == earlier[..cursor]
    ensures var (got, cursor) := Received(pulls); cursor <= |LatestFeed(pulls)| && got == LatestFeed(pulls)[..cursor]
  {
    hide Received;
    OnePull(pulls);
    var (got, cursor) := Received(pulls[..|pulls| - 1]);
    assert got == LatestFeed(pulls)[..cursor];
  }

  /** The sequence numbers received are 1, 2, 3, … up to the cursor. */
  lemma ReceivedInOrder(pulls: seq<Pull>)
    requires GrowsAtEnd(pulls)
    ensures var (got, cursor) := Received(pulls); |got| == cursor && Numbered(got)
  {
    ReceivedIsPrefix(pulls);
    assert pulls == [] || Numbered(LatestFeed(pulls));
  }

  /** A pull moves the cursor by as many unread entries as it may, so one that finds unread entries always advances. */
  lemma UnreadAdvances(pulls: seq<Pull>)
    requires GrowsAtEnd(pulls) && pulls != [] && InRange(pulls[|pulls| - 1].limit)
    ensures var n := |pulls| - 1;
      var before, after := Received(pulls[..n]).1, Received(pulls).1;
      after == Min(before + pulls[n].limit, |pulls[n].feed|)
      && (before < |pulls[n].feed| ==> before < after)
  {
    hide Received;
    ReceivedIsPrefix(pulls[..|pulls| - 1]);
    OnePull(pulls);
  }

  function Steady(feed: seq<Export>, limit: nat, k: nat): seq<Pull> {
    if k == 0 then [] else Steady(feed, limit, k - 1) + [Pull(feed, limit)]
  }

  /** A feed that stays as it is has been read up to min(k · limit, n) after k pulls. */
  lemma {:induction false} SteadyCursor(feed: seq<Export>, limit: nat, k: nat)
    requires Numbered(feed) && InRange(limit)
    ensures GrowsAtEnd(Steady(feed, limit, k)) && (k == 0 || LatestFeed(Steady(feed, limit, k)) == feed)
    ensures Received(Steady(feed, limit, k)).1 == Min(k * limit, |feed|)
  {
    hide Received, GrowsAtEnd, LatestFeed, Min;
    SteadyStart(feed, limit);
    if 0 < k {
      SteadyCursor(feed, limit, k - 1);
      SteadySnoc(feed, limit, k);
      NextMin(k - 1, limit, |feed|);
    }
  }

  lemma SteadyStart(feed: seq<Export>, limit: nat)
    ensures Steady(feed, limit, 0) == [] && GrowsAtEnd([]) && Received([]) == ([], 0) && Min(0 * limit, |feed|) == 0
  {
  }

  lemma NextMin(k: nat, limit: nat, n: nat)
    ensures 0 <= k * limit && Min(Min(k * limit, n) + limit, n) == Min((k + 1) * limit, n)
  {
    assert (k + 1) * limit == k * limit + limit;
  }

  lemma SteadySnoc(feed: seq<Export>, limit: nat, k: nat)
    requires 0 < k && Numbered(feed) && InRange(limit)
    requires GrowsAtEnd(Steady(feed, limit, k - 1)) && (k == 1 || LatestFeed(Steady(feed, limit, k - 1)) == feed)
    ensures var pulls, fewer := Steady(feed, limit, k), Steady(feed, limit, k - 1);
      && GrowsAtEnd(pulls) && LatestFeed(pulls) == feed
      && Received(pulls).1 == Min(Received(fewer).1 + limit, |feed|)
  {
    hide Received;
    var pulls := Steady(feed, limit, k);
    assert pulls[..|pulls| - 1] == Steady(feed, limit, k - 1);
    UnreadAdvances(pulls);
  }

  function Ceiling(n: nat, d: nat): nat
    requires 0 < d
  {
    (n + d - 1) / d
  }

  /** It is drained in ceil(n / limit) pulls, and not in fewer. */
  lemma DrainedInTime(feed: seq<Export>, limit: nat, k: nat)
    requires Numbered(feed) && InRange(limit)
    ensures Received(Steady(feed, limit, k)).0 == feed <==> Ceiling(|feed|, limit) <= k
  {
    hide Received, Steady;
    SteadyCursor(feed, limit, k);
    ReceivedIsPrefix(Steady(feed, limit, k));
    CeilingBound(|feed|, limit, k);
    SteadyStart(feed, limit);
  }

  lemma CeilingBound(n: nat, d: nat, k: nat)
    requires 0 < d
    ensures n <= k * d <==> Ceiling(n, d) <= k
  {
    var c := Ceiling(n, d);
    var r := (n + d - 1) % d;
    assert n + d - 1 == c * d + r && r < d;
    if c <= k {
      MulMonotone(c, k, d);
    } else {
      MulMonotone(k + 1, c, d);
    }
  }

  lemma MulMonotone(a: nat, b: nat, d: nat)
    requires a <= b
    ensures a * d <= b * d
  {
    assert b * d == a * d + (b - a) * d;
  }
}
