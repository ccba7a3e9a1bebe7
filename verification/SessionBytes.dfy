/** The bytes a session signer commits to (crates/piteka-domain/src/session.rs). */
module SessionBytes {
  import opened Records
  import opened Bytes

  datatype Role = Requester | Approver | Auditor

  /** Identifiers are the UTF-8 bytes of their text. */
  datatype Claims = Claims(id: seq<byte>, subject: seq<byte>, organization: seq<byte>, role: Role, issued: nat,
                           expires: nat)

  const TWO64 := 0x1_0000_0000_0000_0000

  predicate WellTyped(c: Claims) {
    |c.id| == 16 && c.issued < TWO64 && c.expires < TWO64
  }

  /** Both texts are shorter than their length prefix can tell. */
  predicate Short(c: Claims) { |c.subject| < TWO32 && |c.organization| < TWO32 }

  /** "piteka-demo-session-v1" */
  const DOMAIN: seq<byte> := [112, 105, 116, 101, 107, 97, 45, 100, 101, 109, 111, 45, 115, 101, 115, 115, 105, 111,
                              110, 45, 118, 49]

  lemma DomainIsText()
    ensures DOMAIN == Ascii("piteka-demo-session-v1")
  {
  }

  function Tag(role: Role): byte {
    match role case Requester => 1 case Approver => 2 case Auditor => 3
  }

  function RoleOf(tag: nat): Option<Role> {
    if tag == 1 then Some(Requester) else if tag == 2 then Some(Approver) else if tag == 3 then Some(Auditor) else None
  }

  function Trailer(c: Claims): seq<byte> {
    [Tag(c.role)] + (BigEndian(c.issued, 8) + BigEndian(c.expires, 8))
  }

  function SigningBytes(c: Claims): seq<byte> {
    Field(DOMAIN) + (c.id + (Field(c.subject) + (Field(c.organization) + Trailer(c))))
  }

  /** `SessionClaims::signing_bytes`. */
  method WriteSigningBytes(c: Claims) returns (out: seq<byte>)
    ensures out == SigningBytes(c)
  {
    var buffer := new Buffer();
    buffer.PushField(DOMAIN);
    buffer.Extend(c.id);
    buffer.PushField(c.subject);
    buffer.PushField(c.organization);
    buffer.Extend([Tag(c.role)]);
    buffer.Extend(BigEndian(c.issued, 8));
    buffer.Extend(BigEndian(c.expires, 8));
    out := buffer.bytes;
    Reassociate(Field(DOMAIN), c.id, Field(c.subject), Field(c.organization), [Tag(c.role)], BigEndian(c.issued, 8),
                BigEndian(c.expires, 8));
  }

  lemma Reassociate(a: seq<byte>, b: seq<byte>, c: seq<byte>, d: seq<byte>, e: seq<byte>, f: seq<byte>, g: seq<byte>)
    ensures [] + a + b + c + d + e + f + g == a + (b + (c + (d + (e + (f + g)))))
  {
  }

  // ----- Decoding

  function DecodeTrailer(id: seq<byte>, subject: seq<byte>, organization: seq<byte>, s: seq<byte>): Option<Claims> {
    match TakeNumber(s, 1)
    case Stuck => None
    case Got(tag, rest) =>
      match TakeNumber(rest, 8)
      case Stuck => None
      case Got(issued, rest) =>
        match TakeNumber(rest, 8)
        case Stuck => None
        case Got(expires, rest) =>
          if rest == [] && RoleOf(tag).Some?
          then Some(Claims(id, subject, organization, RoleOf(tag).value, issued, expires)) else None
  }

  function DecodeTexts(id: seq<byte>, s: seq<byte>): Option<Claims> {
    match TakeField(s)
    case Stuck => None
    case Got(subject, rest) =>
      match TakeField(rest)
      case Stuck => None
      case Got(organization, rest) => DecodeTrailer(id, subject, organization, rest)
  }

  function Decode(s: seq<byte>): Option<Claims> {
    match TakeField(s)
    case Stuck => None
    case Got(domain, rest) =>
      if domain != DOMAIN then None
      else match Take(rest, 16) case Stuck => None case Got(id, rest) => DecodeTexts(id, rest)
  }

  lemma DecodeTrailerUndoes(c: Claims)
    requires WellTyped(c)
    ensures DecodeTrailer(c.id, c.subject, c.organization, Trailer(c)) == Some(c)
  {
    hide BigEndian, Value;
    Widths();
    var times := BigEndian(c.issued, 8) + BigEndian(c.expires, 8);
    OneByte(Tag(c.role), times);
    TakeNumberUndoes(c.issued, 8, BigEndian(c.expires, 8));
    TakeNumberUndoes(c.expires, 8, []);
    assert BigEndian(c.expires, 8) + [] == BigEndian(c.expires, 8);
  }

  /** The decoder recovers every field from the signing bytes. */
  lemma DecodeUndoesSigningBytes(c: Claims)
    requires WellTyped(c) && Short(c)
    ensures Decode(SigningBytes(c)) == Some(c)
  {
    hide Field, Trailer, DecodeTrailer;
    var texts := Field(c.subject) + (Field(c.organization) + Trailer(c));
    TakeFieldUndoes(DOMAIN, c.id + texts);
    TakeUndoes(c.id, texts);
    TakeFieldUndoes(c.subject, Field(c.organization) + Trailer(c));
    TakeFieldUndoes(c.organization, Trailer(c));
    DecodeTrailerUndoes(c);
  }

  // ----- Collisions

  // Where the subject's length stands, and how long the whole is.
  lemma Outline(c: Claims)
    requires WellTyped(c)
    ensures |SigningBytes(c)| == |DOMAIN| + |c.subject| + |c.organization| + 45
    ensures SigningBytes(c)[|DOMAIN| + 20..|DOMAIN| + 24] == LengthPrefix(c.subject)
  {
    hide BigEndian, LengthPrefix;
    var head, tail := Field(DOMAIN) + c.id, c.subject + (Field(c.organization) + Trailer(c));
    assert SigningBytes(c) == head + (LengthPrefix(c.subject) + tail);
    assert |head| == |DOMAIN| + 20;
  }

  lemma {:induction false} LengthsAgree(a: Claims, b: Claims)
    requires WellTyped(a) && WellTyped(b) && Short(a)
    ensures SigningBytes(a) == SigningBytes(b) ==> |a.subject| == |b.subject| && |a.organization| == |b.organization|
  {
    hide SigningBytes, LengthPrefix;
    if SigningBytes(a) == SigningBytes(b) {
      Outline(a);
      Outline(b);
      PrefixTellsLength(a.subject, b.subject);
      NoRoomToWrap(|a.subject|, |a.organization|, |b.subject|, |b.organization|);
    }
  }

  lemma NoRoomToWrap(m: nat, n: nat, p: nat, q: nat)
    requires m < TWO32 && n < TWO32 && m + n == p + q && m % TWO32 == p % TWO32
    ensures m == p && n == q
  {
  }

  /** One side's short texts are enough: claims with the same signing bytes are the same claims. */
  lemma SigningBytesInjective(a: Claims, b: Claims)
    requires WellTyped(a) && WellTyped(b) && Short(a)
    ensures SigningBytes(a) == SigningBytes(b) <==> a == b
  {
    hide SigningBytes, Decode;
    LengthsAgree(a, b);
    DecodeUndoesSigningBytes(a);
    if SigningBytes(a) == SigningBytes(b) {
      DecodeUndoesSigningBytes(b);
    }
  }

  /**
   Without a bound on the texts the encoding does collide: 2^32 bytes move from the subject of one to the
   organization of the other, and the wrapped length prefixes do not tell.
   */
  lemma LongTextsCollide(c: Claims, filler: seq<byte>)
    requires WellTyped(c) && |filler| == TWO32 - 4 && |c.organization| == 1
    ensures var long := c.(subject := c.subject + (BigEndian(1, 4) + filler));
      var other := c.(organization := filler + Field(c.organization));
      SigningBytes(long) == SigningBytes(other) && long != other
  {
    hide BigEndian;
    var moved := BigEndian(1, 4) + filler;
    var long, other := c.(subject := c.subject + moved), c.(organization := filler + Field(c.organization));
    assert |long.subject| == |c.subject| + TWO32 && |long.subject| % TWO32 == |c.subject| % TWO32;
    assert |other.organization| == TWO32 + 1 && |other.organization| % TWO32 == 1;
    assert LengthPrefix(long.subject) == LengthPrefix(c.subject);
    assert LengthPrefix(other.organization) == BigEndian(1, 4);
    assert Field(long.subject) + (Field(long.organization) + Trailer(long))
      == Field(other.subject) + (Field(other.organization) + Trailer(other));
  }
}
