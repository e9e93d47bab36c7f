/** The hexadecimal form in which master secrets and heartbeat nonces travel. */
module Hex {
  import opened Basics

  function Digit(d: int): (c: char)
    requires 0 <= d < 16
  {
    if d < 10 then '0' + d as char else 'a' + (d - 10) as char
  }

  function DigitValue(c: char): Option<int> {
    if '0' <= c <= '9' then Some(c as int - '0' as int)
    else if 'a' <= c <= 'f' then Some(c as int - 'a' as int + 10)
    else if 'A' <= c <= 'F' then Some(c as int - 'A' as int + 10)
    else None
  }

  function EncodeByte(b: byte): string {
    [Digit(b as int / 16), Digit(b as int % 16)]
  }

  function DecodeByte(h: char, l: char): Option<byte> {
    match (DigitValue(h), DigitValue(l))
    case (Some(x), Some(y)) => Some((x * 16 + y) as byte)
    case _ => None
  }

  function Encode(b: Bytes): string {
    if b == [] then "" else EncodeByte(b[0]) + Encode(b[1..])
  }

  function Decode(s: string): Option<Bytes> {
    if s == "" then Some([])
    else if |s| == 1 then None
    else
      match (DecodeByte(s[0], s[1]), Decode(s[2..]))
      case (Some(b), Some(rest)) => Some([b] + rest)
      case _ => None
  }

  lemma ByteRoundTrip(b: byte)
    ensures DecodeByte(EncodeByte(b)[0], EncodeByte(b)[1]) == Some(b)
  {
    var x, y := b as int / 16, b as int % 16;
    assert DigitValue(Digit(x)) == Some(x);
    assert DigitValue(Digit(y)) == Some(y);
    assert x * 16 + y == b as int;
  }

  /** What one node encodes another node decodes to the same bytes. */
  lemma {:induction false} RoundTrip(b: Bytes)
    ensures Decode(Encode(b)) == Some(b)
  {
    if b != [] {
      RoundTrip(b[1..]);
      ByteRoundTrip(b[0]);
      var e := Encode(b);
      assert e[0] == EncodeByte(b[0])[0] && e[1] == EncodeByte(b[0])[1];
      assert e[2..] == Encode(b[1..]);
      assert [b[0]] + b[1..] == b;
    }
  }
}
