/** Big-endian numbers and length-prefixed fields. */
module Bytes {

  newtype byte = x: int | 0 <= x < 256

  const TWO32 := 0x1_0000_0000

  /** The low `width` bytes of n, most significant first: what `to_be_bytes` gives for an n in range. */
  function BigEndian(n: nat, width: nat): (s: seq<byte>)
    ensures |s| == width
  {
    if width == 0 then [] else BigEndian(n / 256, width - 1) + [(n % 256) as byte]
  }

  function Value(s: seq<byte>): nat {
    if s == [] then 0 else Value(s[..|s| - 1]) * 256 + s[|s| - 1] as nat
  }

  function Power256(width: nat): nat {
    if width == 0 then 1 else Power256(width - 1) * 256
  }

  lemma {:induction false} ValueUndoesBigEndian(n: nat, width: nat)
    requires n < Power256(width)
    ensures Value(BigEndian(n, width)) == n
  {
    if 0 < width {
      ValueUndoesBigEndian(n / 256, width - 1);
      assert BigEndian(n, width)[..width - 1] == BigEndian(n / 256, width - 1);
    }
  }

  lemma Widths()
    ensures Power256(1) == 256 && Power256(2) == 0x1_0000 && Power256(4) == TWO32
      && Power256(8) == 0x1_0000_0000_0000_0000
  {
    assert Power256(2) == Power256(1) * 256;
    assert Power256(4) == Power256(3) * 256;
    assert Power256(6) == Power256(5) * 256;
    assert Power256(8) == Power256(7) * 256;
  }

  /** `len as u32` keeps the length modulo 2^32. */
  function LengthPrefix(text: seq<byte>): (s: seq<byte>)
    ensures |s| == 4
  {
    BigEndian(|text| % TWO32, 4)
  }

  /** `push_bytes` and `put_text`. */
  function Field(text: seq<byte>): seq<byte> {
    LengthPrefix(text) + text
  }

  /** The bytes of a text of ASCII characters. */
  function Ascii(text: string): seq<byte>
    requires forall i :: 0 <= i < |text| ==> text[i] < '\U{80}'
  {
    seq(|text|, i requires 0 <= i < |text| => text[i] as byte)
  }

  // ----- Reading back

  datatype Read<+T> = Stuck | Got(value: T, rest: seq<byte>)

  function Take(s: seq<byte>, n: nat): Read<seq<byte>> {
    if |s| < n then Stuck else Got(s[..n], s[n..])
  }

  function TakeNumber(s: seq<byte>, width: nat): Read<nat> {
    if |s| < width then Stuck else Got(Value(s[..width]), s[width..])
  }

  function TakeField(s: seq<byte>): Read<seq<byte>> {
    match TakeNumber(s, 4)
    case Stuck => Stuck
    case Got(n, rest) => Take(rest, n)
  }

  lemma TakeUndoes(x: seq<byte>, rest: seq<byte>)
    ensures Take(x + rest, |x|) == Got(x, rest)
  {
  }

  lemma TakeNumberUndoes(n: nat, width: nat, rest: seq<byte>)
    requires n < Power256(width)
    ensures TakeNumber(BigEndian(n, width) + rest, width) == Got(n, rest)
  {
    ValueUndoesBigEndian(n, width);
    assert (BigEndian(n, width) + rest)[..width] == BigEndian(n, width);
  }

  /** A text shorter than 2^32 bytes is read back, whatever follows it. */
  lemma TakeFieldUndoes(text: seq<byte>, rest: seq<byte>)
    requires |text| < TWO32
    ensures TakeField(Field(text) + rest) == Got(text, rest)
  {
    Widths();
    TakeNumberUndoes(|text|, 4, text + rest);
    assert Field(text) + rest == BigEndian(|text|, 4) + (text + rest);
    TakeUndoes(text, rest);
  }

  lemma OneByte(b: byte, rest: seq<byte>)
    ensures TakeNumber([b] + rest, 1) == Got(b as nat, rest)
  {
    assert ([b] + rest)[..1] == [b];
    assert Value([b]) == Value([]) * 256 + b as nat;
  }

  // Equal prefixes mean equal lengths modulo 2^32.
  lemma PrefixTellsLength(a: seq<byte>, b: seq<byte>)
    requires LengthPrefix(a) == LengthPrefix(b)
    ensures |a| % TWO32 == |b| % TWO32
  {
    Widths();
    ValueUndoesBigEndian(|a| % TWO32, 4);
    ValueUndoesBigEndian(|b| % TWO32, 4);
  }

  /** `Vec<u8>` as the encoders fill it. */
  class Buffer {
    var bytes: seq<byte>

    constructor ()
      ensures bytes == []
    {
      bytes := [];
    }

    method Extend(more: seq<byte>)
      modifies this
      ensures bytes == old(bytes) + more
    {
      bytes := bytes + more;
    }

    method PushField(text: seq<byte>)
      modifies this
      ensures bytes == old(bytes) + Field(text)
    {
      bytes := bytes + BigEndian(|text| % TWO32, 4);
      bytes := bytes + text;
    }
  }
}
