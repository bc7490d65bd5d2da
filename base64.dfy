/**
 * The standard base64 encoding of RFC 4648, section 4: every three octets
 * become four characters of the 64-letter alphabet, and a final group of
 * one or two octets is padded with `=`. The decoder is the encoder's
 * partner: decoding an encoding gives the octets back.
 */
module Base64 {
  import opened Wrappers

  const Pad: char := '='

  /** The character for a six-bit value (the table of section 4: A-Z, a-z, 0-9, '+', '/'). */
  function CharOf(i: int): (c: char)
    requires 0 <= i < 64
    ensures c != Pad
  {
    if i < 26 then ('A' as int + i) as char
    else if i < 52 then ('a' as int + (i - 26)) as char
    else if i < 62 then ('0' as int + (i - 52)) as char
    else if i == 62 then '+'
    else '/'
  }

  /** The six-bit value of an alphabet character, `None` for any other character. */
  function ValueOf(c: char): (r: Option<int>)
    ensures r.Some? ==> 0 <= r.value < 64
  {
    if 'A' <= c <= 'Z' then Some(c as int - 'A' as int)
    else if 'a' <= c <= 'z' then Some(c as int - 'a' as int + 26)
    else if '0' <= c <= '9' then Some(c as int - '0' as int + 52)
    else if c == '+' then Some(62)
    else if c == '/' then Some(63)
    else None
  }

  lemma ValueOfCharOf(i: int)
    requires 0 <= i < 64
    ensures ValueOf(CharOf(i)) == Some(i)
  {
  }

  /** The four characters of a full group. */
  function EncodeGroup(b0: byte, b1: byte, b2: byte): string {
    [CharOf(b0 as int / 4), CharOf((b0 as int % 4) * 16 + b1 as int / 16),
     CharOf((b1 as int % 16) * 4 + b2 as int / 64), CharOf(b2 as int % 64)]
  }

  /** The padded groups for one and for two final octets. */
  function EncodeOne(b0: byte): string {
    [CharOf(b0 as int / 4), CharOf((b0 as int % 4) * 16), Pad, Pad]
  }

  function EncodeTwo(b0: byte, b1: byte): string {
    [CharOf(b0 as int / 4), CharOf((b0 as int % 4) * 16 + b1 as int / 16), CharOf((b1 as int % 16) * 4), Pad]
  }

  function Encode(b: Bytes): (s: string)
    ensures |s| == 4 * ((|b| + 2) / 3)
    decreases |b|
  {
    if |b| == 0 then ""
    else if |b| == 1 then EncodeOne(b[0])
    else if |b| == 2 then EncodeTwo(b[0], b[1])
    else EncodeGroup(b[0], b[1], b[2]) + Encode(b[3..])
  }

  /** Only the empty input encodes to the empty string. */
  lemma EncodeEmpty(b: Bytes)
    ensures Encode(b) == "" <==> b == []
  {
  }

  /** The octets of four six-bit values. */
  function DecodeGroup(v0: int, v1: int, v2: int, v3: int): Bytes
    requires 0 <= v0 < 64 && 0 <= v1 < 64 && 0 <= v2 < 64 && 0 <= v3 < 64
  {
    [(v0 * 4 + v1 / 16) as byte, ((v1 % 16) * 16 + v2 / 4) as byte, ((v2 % 4) * 64 + v3) as byte]
  }

  /** Every character of the string is in the alphabet. */
  predicate InAlphabet(s: string) {
    forall i :: 0 <= i < |s| ==> ValueOf(s[i]).Some?
  }

  /**
   * Decoding: groups of four characters, padding allowed only in the last
   * group (`xx==` for one octet, `xxx=` for two); anything else is `None`.
   */
  function Decode(s: string): (r: Option<Bytes>)
    decreases |s|
  {
    if |s| == 0 then Some([])
    else if |s| < 4 then None
    else if |s| == 4 && s[2] == Pad && s[3] == Pad then
      if !InAlphabet(s[..2]) then None
      else Some([(ValueOf(s[0]).value * 4 + ValueOf(s[1]).value / 16) as byte])
    else if |s| == 4 && s[3] == Pad then
      if !InAlphabet(s[..3]) then None
      else
        var v0, v1, v2 := ValueOf(s[0]).value, ValueOf(s[1]).value, ValueOf(s[2]).value;
        Some([(v0 * 4 + v1 / 16) as byte, ((v1 % 16) * 16 + v2 / 4) as byte])
    else if !InAlphabet(s[..4]) then None
    else
      match Decode(s[4..])
      case None => None
      case Some(rest) => Some(DecodeGroup(ValueOf(s[0]).value, ValueOf(s[1]).value, ValueOf(s[2]).value, ValueOf(s[3]).value) + rest)
  }

  lemma Split16(a: int, b: int)
    requires 0 <= b < 16
    ensures (a * 16 + b) / 16 == a && (a * 16 + b) % 16 == b
  {
  }

  lemma Split4(a: int, b: int)
    requires 0 <= b < 4
    ensures (a * 4 + b) / 4 == a && (a * 4 + b) % 4 == b
  {
  }

  lemma GroupRoundTrip(b0: byte, b1: byte, b2: byte)
    ensures InAlphabet(EncodeGroup(b0, b1, b2))
    ensures var g := EncodeGroup(b0, b1, b2);
      DecodeGroup(ValueOf(g[0]).value, ValueOf(g[1]).value, ValueOf(g[2]).value, ValueOf(g[3]).value) == [b0, b1, b2]
  {
    var v0, v1, v2, v3 := b0 as int / 4, (b0 as int % 4) * 16 + b1 as int / 16, (b1 as int % 16) * 4 + b2 as int / 64, b2 as int % 64;
    ValueOfCharOf(v0);
    ValueOfCharOf(v1);
    ValueOfCharOf(v2);
    ValueOfCharOf(v3);
    Split16(b0 as int % 4, b1 as int / 16);
    Split4(b1 as int % 16, b2 as int / 64);
  }

  lemma RoundTripOne(b0: byte)
    ensures Decode(EncodeOne(b0)) == Some([b0])
  {
    var v0, v1 := b0 as int / 4, (b0 as int % 4) * 16;
    ValueOfCharOf(v0);
    ValueOfCharOf(v1);
    Split16(b0 as int % 4, 0);
    assert InAlphabet(EncodeOne(b0)[..2]);
  }

  lemma RoundTripTwo(b0: byte, b1: byte)
    ensures Decode(EncodeTwo(b0, b1)) == Some([b0, b1])
  {
    var v0, v1, v2 := b0 as int / 4, (b0 as int % 4) * 16 + b1 as int / 16, (b1 as int % 16) * 4;
    ValueOfCharOf(v0);
    ValueOfCharOf(v1);
    ValueOfCharOf(v2);
    Split16(b0 as int % 4, b1 as int / 16);
    Split4(b1 as int % 16, 0);
    assert InAlphabet(EncodeTwo(b0, b1)[..3]);
  }

  /** A full group followed by the encoding of the rest decodes group by group. */
  lemma DecodeGroupThenRest(b0: byte, b1: byte, b2: byte, rest: string, tail: Bytes)
    requires Decode(rest) == Some(tail)
    ensures Decode(EncodeGroup(b0, b1, b2) + rest) == Some([b0, b1, b2] + tail)
  {
    var g := EncodeGroup(b0, b1, b2);
    var s := g + rest;
    assert s[..4] == g;
    assert s[4..] == rest;
    assert s[3] == g[3] != Pad;
    GroupRoundTrip(b0, b1, b2);
  }

  /** Decoding an encoding gives the octets back. */
  lemma {:induction false} DecodeEncode(b: Bytes)
    ensures Decode(Encode(b)) == Some(b)
    decreases |b|
  {
    if |b| == 1 {
      RoundTripOne(b[0]);
      assert [b[0]] == b;
    } else if |b| == 2 {
      RoundTripTwo(b[0], b[1]);
      assert [b[0], b[1]] == b;
    } else if |b| >= 3 {
      DecodeEncode(b[3..]);
      DecodeGroupThenRest(b[0], b[1], b[2], Encode(b[3..]), b[3..]);
      FirstGroup(b);
    }
  }

  lemma FirstGroup(b: Bytes)
    requires |b| >= 3
    ensures [b[0], b[1], b[2]] + b[3..] == b
  {
  }
}
