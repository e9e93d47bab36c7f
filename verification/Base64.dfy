/** Standard base64 with padding, section 4 of RFC 4648; like the Go decoder it skips line breaks. */
module Base64 {
  import opened Basics

  function Digit(d: int): (c: char)
    requires 0 <= d < 64
    ensures c != '=' && c != '\n' && c != '\r'
  {
    if d < 26 then 'A' + d as char
    else if d < 52 then 'a' + (d - 26) as char
    else if d < 62 then '0' + (d - 52) as char
    else if d == 62 then '+' else '/'
  }

  function DigitValue(c: char): (v: Option<int>)
    ensures v.Some? ==> 0 <= v.value < 64
  {
    if 'A' <= c <= 'Z' then Some((c - 'A') as int)
    else if 'a' <= c <= 'z' then Some((c - 'a') as int + 26)
    else if '0' <= c <= '9' then Some((c - '0') as int + 52)
    else if c == '+' then Some(62)
    else if c == '/' then Some(63)
    else None
  }

  lemma DigitRoundTrip(d: int)
    requires 0 <= d < 64
    ensures DigitValue(Digit(d)) == Some(d)
  {
  }

  // ------------------------------------------------------------ the groups

  function First(a: int): int { a / 4 }

  function Second(a: int, b: int): int { a % 4 * 16 + b / 16 }

  function Third(b: int, c: int): int { b % 16 * 4 + c / 64 }

  function Fourth(c: int): int { c % 64 }

  function EncodeGroup(a: byte, b: byte, c: byte): string {
    [Digit(First(a as int)), Digit(Second(a as int, b as int)), Digit(Third(b as int, c as int)),
        Digit(Fourth(c as int))]
  }

  function EncodeTwo(a: byte, b: byte): string {
    [Digit(First(a as int)), Digit(Second(a as int, b as int)), Digit(Third(b as int, 0)), '=']
  }

  function EncodeOne(a: byte): string {
    [Digit(First(a as int)), Digit(Second(a as int, 0)), '=', '=']
  }

  function Encode(b: Bytes): string {
    if |b| == 0 then ""
    else if |b| == 1 then EncodeOne(b[0])
    else if |b| == 2 then EncodeTwo(b[0], b[1])
    else EncodeGroup(b[0], b[1], b[2]) + Encode(b[3..])
  }

  function FirstByte(v: int, w: int): byte
    requires 0 <= v < 64 && 0 <= w < 64
  {
    (v * 4 + w / 16) as byte
  }

  function SecondByte(v: int, w: int): byte
    requires 0 <= v < 64 && 0 <= w < 64
  {
    (v % 16 * 16 + w / 4) as byte
  }

  function ThirdByte(v: int, w: int): byte
    requires 0 <= v < 64 && 0 <= w < 64
  {
    (v % 4 * 64 + w) as byte
  }

  /** The last group, which may end in one or two padding characters. */
  function DecodeLast(s: string): Option<Bytes>
    requires |s| == 4
  {
    var v, w := DigitValue(s[0]), DigitValue(s[1]);
    if v.None? || w.None? then None
    else if s[2] == '=' then
      if s[3] == '=' then Some([FirstByte(v.value, w.value)]) else None
    else
      var x := DigitValue(s[2]);
      if x.None? then None
      else if s[3] == '=' then Some([FirstByte(v.value, w.value), SecondByte(w.value, x.value)])
      else DecodeFull(s)
  }

  function DecodeFull(s: string): Option<Bytes>
    requires |s| == 4
  {
    var v, w, x, y := DigitValue(s[0]), DigitValue(s[1]), DigitValue(s[2]), DigitValue(s[3]);
    if v.None? || w.None? || x.None? || y.None? then None
    else Some([FirstByte(v.value, w.value), SecondByte(w.value, x.value), ThirdByte(x.value, y.value)])
  }

  function DecodeGroups(s: string): Option<Bytes> {
    if s == "" then Some([])
    else if |s| < 4 then None
    else if |s| == 4 then DecodeLast(s)
    else
      match DecodeFull(s[..4])
      case None => None
      case Some(b) =>
        match DecodeGroups(s[4..])
        case None => None
        case Some(rest) => Some(b + rest)
  }

  function WithoutBreaks(s: string): string {
    if s == "" then "" else (if s[0] == '\n' || s[0] == '\r' then "" else [s[0]]) + WithoutBreaks(s[1..])
  }

  function Decode(s: string): Option<Bytes> {
    DecodeGroups(WithoutBreaks(s))
  }

  // ------------------------------------------------------------- round trip

  lemma ByteSplit(a: byte, b: byte, c: byte)
    ensures var v, w, x, y := First(a as int), Second(a as int, b as int), Third(b as int, c as int), Fourth(c as int);
            && 0 <= v < 64 && 0 <= w < 64 && 0 <= x < 64 && 0 <= y < 64
            && FirstByte(v, w) == a && SecondByte(w, x) == b && ThirdByte(x, y) == c
  {
  }

  lemma FourDigits(v: int, w: int, x: int, y: int)
    requires 0 <= v < 64 && 0 <= w < 64 && 0 <= x < 64 && 0 <= y < 64
    ensures var s := [Digit(v), Digit(w), Digit(x), Digit(y)];
            && DecodeFull(s) == Some([FirstByte(v, w), SecondByte(w, x), ThirdByte(x, y)])
            && DecodeLast(s) == DecodeFull(s)
  {
    DigitRoundTrip(v);
    DigitRoundTrip(w);
    DigitRoundTrip(x);
    DigitRoundTrip(y);
  }

  lemma FewDigits(v: int, w: int, x: int)
    requires 0 <= v < 64 && 0 <= w < 64 && 0 <= x < 64
    ensures DecodeLast([Digit(v), Digit(w), Digit(x), '=']) == Some([FirstByte(v, w), SecondByte(w, x)])
    ensures DecodeLast([Digit(v), Digit(w), '=', '=']) == Some([FirstByte(v, w)])
  {
    DigitRoundTrip(v);
    DigitRoundTrip(w);
    DigitRoundTrip(x);
  }

  lemma FullGroup(a: byte, b: byte, c: byte)
    ensures DecodeFull(EncodeGroup(a, b, c)) == Some([a, b, c])
    ensures DecodeLast(EncodeGroup(a, b, c)) == Some([a, b, c])
  {
    ByteSplit(a, b, c);
    FourDigits(First(a as int), Second(a as int, b as int), Third(b as int, c as int), Fourth(c as int));
  }

  lemma TwoBytes(a: byte, b: byte)
    ensures DecodeLast(EncodeTwo(a, b)) == Some([a, b])
  {
    ByteSplit(a, b, 0);
    FewDigits(First(a as int), Second(a as int, b as int), Third(b as int, 0));
  }

  lemma OneSplit(a: int)
    requires 0 <= a < 256
    ensures 0 <= First(a) < 64 && 0 <= Second(a, 0) < 64 && FirstByte(First(a), Second(a, 0)) as int == a
  {
  }

  lemma OneByte(a: byte)
    ensures DecodeLast(EncodeOne(a)) == Some([a])
  {
    OneSplit(a as int);
    FewDigits(First(a as int), Second(a as int, 0), 0);
  }

  lemma ShortRoundTrip(b: Bytes)
    requires |b| == 1 || |b| == 2
    ensures DecodeGroups(Encode(b)) == Some(b)
  {
    if |b| == 1 {
      OneByte(b[0]);
      assert b == [b[0]];
    } else {
      TwoBytes(b[0], b[1]);
      assert b == [b[0], b[1]];
    }
  }

  lemma {:induction false} GroupsRoundTrip(b: Bytes)
    ensures DecodeGroups(Encode(b)) == Some(b)
  {
    if |b| > 2 {
      GroupsRoundTrip(b[3..]);
      FullGroup(b[0], b[1], b[2]);
      assert [b[0], b[1], b[2]] + b[3..] == b;
      GroupFirst(EncodeGroup(b[0], b[1], b[2]), Encode(b[3..]), [b[0], b[1], b[2]], b[3..]);
    } else if |b| > 0 {
      ShortRoundTrip(b);
    }
  }

  lemma GroupFirst(g: string, rest: string, b: Bytes, bs: Bytes)
    requires |g| == 4 && DecodeFull(g) == Some(b) && DecodeLast(g) == Some(b) && DecodeGroups(rest) == Some(bs)
    ensures DecodeGroups(g + rest) == Some(b + bs)
  {
    assert (g + rest)[..4] == g && (g + rest)[4..] == rest;
    if rest == "" { assert g + rest == g && b + bs == b; }
  }

  lemma {:induction false} NoBreaksToSkip(s: string)
    requires '\n' !in s && '\r' !in s
    ensures WithoutBreaks(s) == s
  {
    if s != "" { NoBreaksToSkip(s[1..]); }
  }

  lemma {:induction false} EncodedHasNoBreaks(b: Bytes)
    ensures '\n' !in Encode(b) && '\r' !in Encode(b)
  {
    if |b| > 2 { EncodedHasNoBreaks(b[3..]); }
  }

  lemma RoundTrip(b: Bytes)
    ensures Decode(Encode(b)) == Some(b)
  {
    EncodedHasNoBreaks(b);
    NoBreaksToSkip(Encode(b));
    GroupsRoundTrip(b);
  }
}
