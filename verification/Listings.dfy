/** What the group lookups of the indexed stores list: a request's decisions, a mandate's attempts and receipts. */
module Listings {
  import opened Records
  import opened MemoryStores
  import opened Machine
  import opened NoLookahead
  import opened Evidence
  import opened Authorship

  /** `by_request`, in any run: the request's one decision, if it has one. */
  lemma {:induction false} DecisionsOfRequest(lib: Library, steps: seq<Step>, index: map<string, seq<string>>,
                                              log: seq<Entry<Decision>>, r: string)
    requires Refines(Reach(lib, steps).s.decisions, index, log, DecidedRequest)
    ensures var decisions := Reach(lib, steps).s.decisions;
      InGroup(log, DecidedRequest, r) == if "dec-" + r in decisions then [decisions["dec-" + r]] else []
  {
    hide Reach, Authored, Refines;
    var s := Reach(lib, steps).s;
    forall k | k in s.decisions ensures k == "dec-" + s.decisions[k].request {
      var i := EveryRecordHasOneAuthor(lib, steps, DecisionSlot(k));
    }
    if "dec-" + r in s.decisions {
      DecisionIdInjective(s.decisions["dec-" + r].request, r);
    }
    LoneMember(s.decisions, index, log, DecidedRequest, r, "dec-" + r);
  }

  /** `by_mandate` of the attempts, in any run: the mandate's one attempt, if it has one. */
  lemma {:induction false} AttemptsOfMandate(lib: Library, steps: seq<Step>, index: map<string, seq<string>>,
                                             log: seq<Entry<Attempt>>, m: string)
    requires Refines(Reach(lib, steps).s.attempts, index, log, MandateOf)
    ensures var attempts := Reach(lib, steps).s.attempts;
      InGroup(log, MandateOf, m) == if "att-" + m in attempts then [attempts["att-" + m]] else []
  {
    hide Reach, Authored, Refines;
    var s := Reach(lib, steps).s;
    forall k | k in s.attempts ensures k == "att-" + s.attempts[k].mandate {
      var i := EveryRecordHasOneAuthor(lib, steps, AttemptSlot(k));
    }
    if "att-" + m in s.attempts {
      AttemptIdInjective(s.attempts["att-" + m].mandate, m);
    }
    LoneMember(s.attempts, index, log, MandateOf, m, "att-" + m);
  }

  /** `by_mandate` of the receipts, without lookahead: the mandate's one receipt, of either kind, if it has one. */
  lemma {:induction false} ReceiptsOfMandate(lib: Library, steps: seq<Step>, index: map<string, seq<string>>,
                                             log: seq<Entry<Receipt>>, k: string)
    requires PoliteRun(lib, steps) && Refines(Reach(lib, steps).s.receipts, index, log, ReceiptMandate)
    requires k in Reach(lib, steps).s.receipts
    ensures var r := Reach(lib, steps).s.receipts[k]; InGroup(log, ReceiptMandate, r.mandate) == [r]
  {
    hide Reach, Refines;
    var s := Reach(lib, steps).s;
    forall l | l in s.receipts && s.receipts[l].mandate == s.receipts[k].mandate ensures l == k {
      AtMostOneReceipt(lib, steps, l, k);
    }
    LoneMember(s.receipts, index, log, ReceiptMandate, s.receipts[k].mandate, k);
  }
}
