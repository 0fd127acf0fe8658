/**
 * UTF-8 as defined in section 3 of RFC 3629: what `str.encode('utf-8')`
 * produces, and the decoder it round-trips with.  A `char` is a Unicode
 * scalar value, so every string of the model can be encoded; the lone
 * surrogates a Python `str` can hold, on which `encode` raises, are not
 * modelled.
 */
module Utf8 {

  import opened Wrappers

  newtype byte = x: int | 0 <= x < 256

  /** A continuation byte 10xxxxxx carrying the six bits `bits`. */
  function Cont(bits: int): byte
    requires 0 <= bits < 64
  {
    (0x80 + bits) as byte
  }

  /** The one to four bytes of a scalar value, per the table in section 3 of RFC 3629. */
  function EncodeChar(c: char): (bytes: seq<byte>)
    ensures 1 <= |bytes| <= 4
    ensures |bytes| == 1 <==> c as int < 0x80
  {
    var v := c as int;
    if v < 0x80 then [v as byte]
    else if v < 0x800 then [(0xC0 + v / 0x40) as byte, Cont(v % 0x40)]
    else if v < 0x10000 then [(0xE0 + v / 0x1000) as byte, Cont(v / 0x40 % 0x40), Cont(v % 0x40)]
    else [(0xF0 + v / 0x40000) as byte, Cont(v / 0x1000 % 0x40), Cont(v / 0x40 % 0x40), Cont(v % 0x40)]
  }

  /** `s.encode('utf-8')`. */
  function Encode(s: string): (bytes: seq<byte>)
    ensures |s| <= |bytes| <= 4 * |s|
  {
    if |s| == 0 then [] else EncodeChar(s[0]) + Encode(s[1..])
  }

  /** How many bytes a sequence starting with `lead` takes; 0 for a byte that cannot start one. */
  function SequenceLength(lead: byte): nat
  {
    if lead < 0x80 then 1
    else if 0xC0 <= lead < 0xE0 then 2
    else if 0xE0 <= lead < 0xF0 then 3
    else if 0xF0 <= lead < 0xF8 then 4
    else 0
  }

  predicate IsCont(b: byte)
  {
    0x80 <= b < 0xC0
  }

  /** A scalar value: a code point that is not a surrogate. */
  predicate IsScalar(v: int)
  {
    (0 <= v < 0xD800) || (0xE000 <= v < 0x110000)
  }

  /** The scalar value of one complete, shortest-form sequence, if it is one. */
  function DecodeChar(b: seq<byte>): Option<char>
  {
    if |b| == 1 && b[0] < 0x80 then Some(b[0] as int as char)
    else if |b| == 2 && 0xC0 <= b[0] < 0xE0 && IsCont(b[1]) then
      var v := (b[0] as int - 0xC0) * 0x40 + (b[1] as int - 0x80);
      if 0x80 <= v then Some(v as char) else None
    else if |b| == 3 && 0xE0 <= b[0] < 0xF0 && IsCont(b[1]) && IsCont(b[2]) then
      var v := (b[0] as int - 0xE0) * 0x1000 + (b[1] as int - 0x80) * 0x40 + (b[2] as int - 0x80);
      if 0x800 <= v && IsScalar(v) then Some(v as char) else None
    else if |b| == 4 && 0xF0 <= b[0] < 0xF8 && IsCont(b[1]) && IsCont(b[2]) && IsCont(b[3]) then
      var v := (b[0] as int - 0xF0) * 0x40000 + (b[1] as int - 0x80) * 0x1000
               + (b[2] as int - 0x80) * 0x40 + (b[3] as int - 0x80);
      if 0x10000 <= v && IsScalar(v) then Some(v as char) else None
    else None
  }

  /** Strict decoding: None for any byte sequence that is not well-formed UTF-8. */
  function Decode(bytes: seq<byte>): Option<string>
    decreases |bytes|
  {
    if |bytes| == 0 then Some("")
    else
      var n := SequenceLength(bytes[0]);
      if n == 0 || |bytes| < n then None
      else
        match DecodeChar(bytes[..n])
        case None => None
        case Some(c) =>
          match Decode(bytes[n..])
          case None => None
          case Some(rest) => Some([c] + rest)
  }

  /** Each character's bytes decode back to it, and their lead byte announces their number. */
  lemma DecodeEncodeChar(c: char)
    ensures SequenceLength(EncodeChar(c)[0]) == |EncodeChar(c)|
    ensures DecodeChar(EncodeChar(c)) == Some(c)
  {
    var v := c as int;
    if v < 0x80 {
    } else if v < 0x800 {
      DecodeTwo(c);
    } else if v < 0x10000 {
      DecodeThree(c);
    } else {
      DecodeFour(c);
    }
  }

  lemma DecodeTwo(c: char)
    requires 0x80 <= c as int < 0x800
    ensures SequenceLength(EncodeChar(c)[0]) == 2 && DecodeChar(EncodeChar(c)) == Some(c)
  {
    var v := c as int;
    var q, r := v / 0x40, v % 0x40;
    assert v == q * 0x40 + r && 2 <= q < 0x20;
    var b := EncodeChar(c);
    assert b == [(0xC0 + q) as byte, Cont(r)];
    assert (b[0] as int - 0xC0) * 0x40 + (b[1] as int - 0x80) == v;
  }

  lemma DecodeThree(c: char)
    requires 0x800 <= c as int < 0x10000
    ensures SequenceLength(EncodeChar(c)[0]) == 3 && DecodeChar(EncodeChar(c)) == Some(c)
  {
    var v := c as int;
    var q1, r1 := v / 0x40, v % 0x40;
    var q2, r2 := q1 / 0x40, q1 % 0x40;
    assert v == q1 * 0x40 + r1 && q1 == q2 * 0x40 + r2;
    assert v / 0x1000 == q2 && v / 0x40 % 0x40 == r2;
    var b := EncodeChar(c);
    assert b == [(0xE0 + q2) as byte, Cont(r2), Cont(r1)];
    assert (b[0] as int - 0xE0) * 0x1000 + (b[1] as int - 0x80) * 0x40 + (b[2] as int - 0x80) == v;
  }

  lemma DecodeFour(c: char)
    requires 0x10000 <= c as int
    ensures SequenceLength(EncodeChar(c)[0]) == 4 && DecodeChar(EncodeChar(c)) == Some(c)
  {
    var v := c as int;
    assert v < 0x110000;
    var q1, r1 := v / 0x40, v % 0x40;
    var q2, r2 := q1 / 0x40, q1 % 0x40;
    var q3, r3 := q2 / 0x40, q2 % 0x40;
    assert v == q1 * 0x40 + r1 && q1 == q2 * 0x40 + r2 && q2 == q3 * 0x40 + r3;
    assert v / 0x40000 == q3 && v / 0x1000 % 0x40 == r3 && v / 0x40 % 0x40 == r2;
    var b := EncodeChar(c);
    assert b == [(0xF0 + q3) as byte, Cont(r3), Cont(r2), Cont(r1)];
    assert (b[0] as int - 0xF0) * 0x40000 + (b[1] as int - 0x80) * 0x1000
           + (b[2] as int - 0x80) * 0x40 + (b[3] as int - 0x80) == v;
  }

  /** Decoding an encoding gives back the string. */
  lemma {:induction false} DecodeEncode(s: string)
    ensures Decode(Encode(s)) == Some(s)
  {
    if |s| > 0 {
      var head, tail := EncodeChar(s[0]), Encode(s[1..]);
      DecodeEncodeChar(s[0]);
      DecodeEncode(s[1..]);
      var bytes := head + tail;
      assert bytes[..|head|] == head && bytes[|head|..] == tail;
      assert [s[0]] + s[1..] == s;
    }
  }

  /** An ASCII string is encoded one byte per character, each its code. */
  lemma {:induction false} EncodeAscii(s: string)
    requires forall i :: 0 <= i < |s| ==> s[i] as int < 0x80
    ensures |Encode(s)| == |s|
    ensures forall i :: 0 <= i < |s| ==> Encode(s)[i] as int == s[i] as int
  {
    if |s| > 0 {
      EncodeAscii(s[1..]);
    }
  }
}
