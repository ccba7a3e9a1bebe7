/** The signing preimage of one feed export (src/bin/evidence_feed_server.rs). */
module FeedBytes {
  import opened Records
  import opened Bytes

  /** `SignedPitekaExport` without key id and signature, which the preimage does not cover. */
  datatype Unsigned = Unsigned(schema: nat, sequence: nat, exportId: seq<byte>, revision: nat,
                               supersedes: Option<seq<byte>>,
                               tenant: seq<byte>, emittedAt: nat, sha: seq<byte>, payload: seq<byte>)

  predicate WellTyped(e: Unsigned) {
    && e.schema < 0x1_0000 && e.sequence < Power256(8) && e.revision < TWO32 && e.emittedAt < Power256(8)
    && |e.sha| == 32 && |e.payload| < Power256(8)
  }

  predicate Short(e: Unsigned) {
    |e.exportId| < TWO32 && |e.tenant| < TWO32 && (e.supersedes.Some? ==> |e.supersedes.value| < TWO32)
  }

  /** "diewan.piteka.evidence-feed.v1" and a zero byte */
  const DOMAIN: seq<byte> := [100, 105, 101, 119, 97, 110, 46, 112, 105, 116, 101, 107, 97, 46, 101, 118, 105, 100, 101,
                              110, 99, 101, 45, 102, 101, 101, 100, 46, 118, 49, 0]

  lemma DomainIsText()
    ensures DOMAIN == Ascii("diewan.piteka.evidence-feed.v1" + "\0")
  {
  }

  function Optional(text: Option<seq<byte>>): seq<byte> {
    match text case None => [0] case Some(t) => [1] + Field(t)
  }

  function Body(e: Unsigned): seq<byte> {
    BigEndian(e.emittedAt, 8) + (e.sha + (BigEndian(|e.payload|, 8) + e.payload))
  }

  function SigningBytes(e: Unsigned): seq<byte> {
    DOMAIN + (BigEndian(e.schema, 2) + (BigEndian(e.sequence, 8) + (Field(e.exportId) + (BigEndian(e.revision, 4)
    + (Optional(e.supersedes) + (Field(e.tenant) + Body(e)))))))
  }

  method PushOptional(buffer: Buffer, text: Option<seq<byte>>)
    modifies buffer
    ensures buffer.bytes == old(buffer.bytes) + Optional(text)
  {
    match text {
      case Some(value) =>
        buffer.Extend([1]);
        buffer.PushField(value);
      case None =>
        buffer.Extend([0]);
    }
  }

  /** `SignedPitekaExport::signing_bytes`. */
  method WriteSigningBytes(e: Unsigned) returns (out: seq<byte>)
    ensures out == SigningBytes(e)
  {
    hide BigEndian, Field, Optional;
    var buffer := new Buffer();
    buffer.Extend(DOMAIN);
    buffer.Extend(BigEndian(e.schema, 2));
    buffer.Extend(BigEndian(e.sequence, 8));
    buffer.PushField(e.exportId);
    buffer.Extend(BigEndian(e.revision, 4));
    PushOptional(buffer, e.supersedes);
    buffer.PushField(e.tenant);
    ghost var front := buffer.bytes;
    buffer.Extend(BigEndian(e.emittedAt, 8));
    buffer.Extend(e.sha);
    buffer.Extend(BigEndian(|e.payload|, 8));
    buffer.Extend(e.payload);
    out := buffer.bytes;
    RegroupFront(DOMAIN, BigEndian(e.schema, 2), BigEndian(e.sequence, 8), Field(e.exportId), BigEndian(e.revision, 4),
                 Optional(e.supersedes), Field(e.tenant), Body(e));
    RegroupBack(front, BigEndian(e.emittedAt, 8), e.sha, BigEndian(|e.payload|, 8), e.payload);
  }

  lemma RegroupFront(a: seq<byte>, b: seq<byte>, c: seq<byte>, d: seq<byte>, e: seq<byte>, f: seq<byte>, g: seq<byte>,
                     h: seq<byte>)
    ensures [] + a + b + c + d + e + f + g + h == a + (b + (c + (d + (e + (f + (g + h))))))
  {
  }

  lemma RegroupBack(front: seq<byte>, a: seq<byte>, b: seq<byte>, c: seq<byte>, d: seq<byte>)
    ensures front + a + b + c + d == front + (a + (b + (c + d)))
  {
  }

  // ----- Decoding

  function DecodeOptional(s: seq<byte>): Read<Option<seq<byte>>> {
    match TakeNumber(s, 1)
    case Stuck => Stuck
    case Got(flag, rest) =>
      if flag == 0 then Got(None, rest)
      else if flag == 1 then match TakeField(rest) case Stuck => Stuck case Got(text, rest) => Got(Some(text), rest)
      else Stuck
  }

  datatype Tail = Tail(emittedAt: nat, sha: seq<byte>, payload: seq<byte>)

  function DecodeBody(s: seq<byte>): Option<Tail> {
    match TakeNumber(s, 8)
    case Stuck => None
    case Got(emittedAt, rest) =>
      match Take(rest, 32)
      case Stuck => None
      case Got(sha, rest) =>
        match TakeNumber(rest, 8)
        case Stuck => None
        case Got(n, payload) => if |payload| == n then Some(Tail(emittedAt, sha, payload)) else None
  }

  function DecodeNames(schema: nat, sequence: nat, s: seq<byte>): Option<Unsigned> {
    match TakeField(s)
    case Stuck => None
    case Got(exportId, rest) =>
      match TakeNumber(rest, 4)
      case Stuck => None
      case Got(revision, rest) =>
        match DecodeOptional(rest)
        case Stuck => None
        case Got(supersedes, rest) =>
          match TakeField(rest)
          case Stuck => None
          case Got(tenant, rest) =>
            match DecodeBody(rest)
            case None => None
            case Some(t) =>
              Some(Unsigned(schema, sequence, exportId, revision, supersedes, tenant, t.emittedAt, t.sha, t.payload))
  }

  function Decode(s: seq<byte>): Option<Unsigned> {
    match Take(s, |DOMAIN|)
    case Stuck => None
    case Got(domain, rest) =>
      if domain != DOMAIN then None
      else
        match TakeNumber(rest, 2)
        case Stuck => None
        case Got(schema, rest) =>
          match TakeNumber(rest, 8)
          case Stuck => None
          case Got(sequence, rest) => DecodeNames(schema, sequence, rest)
  }

  lemma DecodeBodyUndoes(e: Unsigned)
    requires WellTyped(e)
    ensures DecodeBody(Body(e)) == Some(Tail(e.emittedAt, e.sha, e.payload))
  {
    hide BigEndian, Value, Power256;
    TakeNumberUndoes(e.emittedAt, 8, e.sha + (BigEndian(|e.payload|, 8) + e.payload));
    TakeUndoes(e.sha, BigEndian(|e.payload|, 8) + e.payload);
    TakeNumberUndoes(|e.payload|, 8, e.payload);
  }

  lemma DecodeOptionalUndoes(text: Option<seq<byte>>, rest: seq<byte>)
    requires text.Some? ==> |text.value| < TWO32
    ensures DecodeOptional(Optional(text) + rest) == Got(text, rest)
  {
    hide Field, TakeField;
    match text
    case None => OneByte(0, rest);
    case Some(t) =>
      OneByte(1, Field(t) + rest);
      assert [1] + Field(t) + rest == [1] + (Field(t) + rest);
      TakeFieldUndoes(t, rest);
  }

  lemma DecodeNamesUndoes(e: Unsigned)
    requires WellTyped(e) && Short(e)
    ensures DecodeNames(e.schema, e.sequence,
      Field(e.exportId) + (BigEndian(e.revision, 4) + (Optional(e.supersedes) + (Field(e.tenant) + Body(e)))))
          == Some(e)
  {
    hide Field, TakeField, BigEndian, TakeNumber, Optional, DecodeOptional, Body, DecodeBody, Power256;
    Widths();
    var d := Field(e.tenant) + Body(e);
    var c := Optional(e.supersedes) + d;
    TakeFieldUndoes(e.exportId, BigEndian(e.revision, 4) + c);
    TakeNumberUndoes(e.revision, 4, c);
    DecodeOptionalUndoes(e.supersedes, d);
    TakeFieldUndoes(e.tenant, Body(e));
    DecodeBodyUndoes(e);
  }

  /** The decoder recovers every signed field. */
  lemma DecodeUndoesSigningBytes(e: Unsigned)
    requires WellTyped(e) && Short(e)
    ensures Decode(SigningBytes(e)) == Some(e)
  {
    hide Field, BigEndian, TakeNumber, Optional, Body, DecodeNames, Power256;
    Widths();
    var names := Field(e.exportId) + (BigEndian(e.revision, 4)
                                      + (Optional(e.supersedes) + (Field(e.tenant) + Body(e))));
    TakeUndoes(DOMAIN, BigEndian(e.schema, 2) + (BigEndian(e.sequence, 8) + names));
    TakeNumberUndoes(e.schema, 2, BigEndian(e.sequence, 8) + names);
    TakeNumberUndoes(e.sequence, 8, names);
    DecodeNamesUndoes(e);
  }

  /** Different exports never share signing bytes. */
  lemma SigningBytesInjective(a: Unsigned, b: Unsigned)
    requires WellTyped(a) && WellTyped(b) && Short(a) && Short(b)
    ensures SigningBytes(a) == SigningBytes(b) <==> a == b
  {
    hide SigningBytes, Decode;
    DecodeUndoesSigningBytes(a);
    DecodeUndoesSigningBytes(b);
  }
}
