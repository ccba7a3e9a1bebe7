/** The records the stores hold (crates/piteka-storage/src/model.rs). */
module Records {
  import opened Text

  datatype Option<+T> = None | Some(value: T)

  datatype RequestStatus = Pending | Approved | Rejected | Revoked

  /** An action request with the version its compare-and-swap runs on. */
  datatype Request = Request(requestedBy: string, intent: Option<string>, status: RequestStatus,
                             createdAt: int, version: int)

  datatype Decision = Decision(request: string, decidedBy: string, approved: bool,
                               intent: Option<string>, decidedAt: int)

  /** The labels the protocol writes; `Other` is any text the store accepts besides. */
  datatype Label = Issued | Reserved | Consumed | Quarantined | Abandoned
                 | Expired | RevokedLabel | Released | Other(text: string)

  datatype Mandate = Mandate(version: int, state: Label)

  datatype CasOutcome = Applied(newVersion: int) | Conflict(currentVersion: int) | Missing

  datatype AttemptState = Prepared | Dispatching | Accepted | RejectedAttempt | OutcomeAmbiguous
                        | ReconciledAccepted | ReconciledNotAccepted | AbandonedAmbiguous

  datatype Attempt = Attempt(id: string, mandate: string, intent: string, tokenDigest: string,
                             executor: string, correlation: string, startedAt: int,
                             state: AttemptState, deployment: Option<int>)

  datatype Outcome = Succeeded | Failed | RejectedOutcome | Unknown

  datatype Receipt = Receipt(id: string, mandate: string, intent: string, attempt: string,
                             outcome: Outcome, createdAt: int, dispatchRefs: seq<string>,
                             targetRefs: seq<string>, gaps: seq<string>)

  datatype Source = Piteka | Provider(name: string) | Verifier

  datatype Node = Node(id: string, registry: string, source: Source, producer: string,
                       collectedAt: int, assertedAt: Option<int>, digest: string, mediaType: string)

  datatype Delivery = Delivery(source: string, rawDigest: string, receivedAt: int)

  datatype Audit = Audit(actor: Option<string>, action: string, decision: string, subject: string)

  /** A parsed `deployment_status` payload; `raw` stands for the bytes it was parsed from. */
  datatype Event = Event(deployment: int, state: string, description: Option<string>,
                         url: Option<string>, updatedAt: int, raw: string)

  /** One `create_deployment` call as the provider sees it. */
  datatype ProviderCall = ProviderCall(mandate: string, attempt: string, correlation: string, digest: string)

  /** SHA-256 (as hex text) and the JSON encoders, left abstract: nothing below assumes they are injective. */
  datatype Library = Library(sha: string -> string, statusJson: Event -> string, claimJson: Outcome -> string)

  // Identifiers derived by the application layer.
  function AttemptId(mandate: string): string { "att-" + mandate }
  function ReceiptId(attempt: string): string { "rcpt-" + attempt }
  function AbandonedReceiptId(attempt: string): string { "rcpt-abandoned-" + attempt }
  function NodeId(digest: string): string { "ev-" + digest }
  function DecisionId(request: string): string { "dec-" + request }

  lemma AttemptIdInjective(a: string, b: string)
    ensures AttemptId(a) == AttemptId(b) <==> a == b
  {
    PrefixInjective("att-", a, b);
  }

  lemma DecisionIdInjective(a: string, b: string)
    ensures DecisionId(a) == DecisionId(b) <==> a == b
  {
    PrefixInjective("dec-", a, b);
  }

  // `rcpt-att-…` and `rcpt-abandoned-…` part at the seventh character, so the two receipt
  // families of attempts named by AttemptId never share an id.
  lemma ReceiptIdsApart(m: string, attempt: string)
    ensures ReceiptId(AttemptId(m)) != AbandonedReceiptId(attempt)
  {
    assert ReceiptId(AttemptId(m)) == "rcpt-att-" + m;
    PrefixesApart("rcpt-att-", "rcpt-abandoned-", m, attempt, 6);
  }

  lemma ReceiptIdInjective(a: string, b: string)
    ensures ReceiptId(a) == ReceiptId(b) <==> a == b
    ensures AbandonedReceiptId(a) == AbandonedReceiptId(b) <==> a == b
  {
    PrefixInjective("rcpt-", a, b);
    PrefixInjective("rcpt-abandoned-", a, b);
  }

  /** `is_terminal_state`. */
  predicate IsTerminal(state: Label) {
    state in {Consumed, Expired, RevokedLabel, Abandoned, Released}
  }

  function LowerChar(c: char): char {
    if 'A' <= c <= 'Z' then c - 'A' + 'a' else c
  }

  // Only ASCII letters matter: no other character lower-cases to a letter of the four words below.
  function Lower(s: string): string {
    seq(|s|, i requires 0 <= i < |s| => LowerChar(s[i]))
  }

  function MapOutcome(state: string): Outcome {
    var word := Lower(state);
    if word == "success" then Succeeded
    else if word == "failure" || word == "error" then Failed
    else Unknown
  }

  /** The same word, capitals aside; `word` has none. */
  predicate SaysWord(s: string, word: string) {
    |s| == |word| && forall i :: 0 <= i < |s| ==> s[i] == word[i] || ('A' <= s[i] <= 'Z' && s[i] - 'A' + 'a' == word[i])
  }

  lemma LowerIsWord(s: string, word: string)
    requires forall i :: 0 <= i < |word| ==> 'a' <= word[i] <= 'z'
    ensures Lower(s) == word <==> SaysWord(s, word)
  {
    if SaysWord(s, word) {
      assert forall i :: 0 <= i < |s| ==> Lower(s)[i] == word[i];
    } else if |s| == |word| {
      var i :| 0 <= i < |s| && !(s[i] == word[i] || ('A' <= s[i] <= 'Z' && s[i] - 'A' + 'a' == word[i]));
      assert Lower(s)[i] != word[i];
    }
  }

  /** Three words, in any mixture of capitals, state an outcome; every other state leaves it unknown. */
  lemma OutcomeOfWord(state: string)
    ensures MapOutcome(state) == Succeeded <==> SaysWord(state, "success")
    ensures MapOutcome(state) == Failed <==> SaysWord(state, "failure") || SaysWord(state, "error")
    ensures MapOutcome(state) in {Succeeded, Failed, Unknown}
  {
    LowerIsWord(state, "success");
    LowerIsWord(state, "failure");
    LowerIsWord(state, "error");
  }

  function OutcomeText(o: Outcome): string {
    match o
    case Succeeded => "succeeded"
    case Failed => "failed"
    case RejectedOutcome => "rejected"
    case Unknown => "unknown"
  }

  predicate IsFinalStatus(state: string) { state in {"success", "failure", "error"} }

  /** The processor's gate lets through exactly the lower-case spellings of the states with a definite outcome. */
  lemma FinalStatusHasOutcome(state: string)
    ensures IsFinalStatus(state) <==> MapOutcome(state) != Unknown && Lower(state) == state
    ensures IsFinalStatus(state) ==> MapOutcome(state) == if state == "success" then Succeeded else Failed
  {
    assert Lower("success") == "success";
    assert Lower("failure") == "failure";
    assert Lower("error") == "error";
  }

  /** A time as `i64`, when the provider's was `u64`: the same number up to a multiple of 2^64. */
  predicate Wraps(asserted: Option<int>, time: int) {
    && asserted.Some?
    && (0 <= time < 0x1_0000_0000_0000_0000 ==>
          && -0x8000_0000_0000_0000 <= asserted.value < 0x8000_0000_0000_0000
          && (asserted.value - time) % 0x1_0000_0000_0000_0000 == 0)
  }

  /** `value as i64` for a `u64` value. */
  function AsI64(v: int): int {
    if v < 0x8000_0000_0000_0000 then v else v - 0x1_0000_0000_0000_0000
  }
}
