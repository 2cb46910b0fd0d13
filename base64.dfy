/**
 * `Buffer.from(text).toString('base64')` as `getAuthHeader` (beam.ts:129-133) uses it:
 * the UTF-8 bytes of a string, written in the standard base64 alphabet of section 4 of
 * RFC 4648 with '=' padding.
 */
module Base64 {
  import opened Wrappers

  type Byte = x: int | 0 <= x < 256

  /** The character for a 6-bit value: 'A'-'Z', 'a'-'z', '0'-'9', '+', '/'. */
  function SextetChar(i: nat): (c: char)
    requires i < 64
  {
    if i < 26 then ('A' as int + i) as char
    else if i < 52 then ('a' as int + (i - 26)) as char
    else if i < 62 then ('0' as int + (i - 52)) as char
    else if i == 62 then '+'
    else '/'
  }

  /** The 6-bit value of a base64 character, or -1 for any other character (including '='). */
  function SextetValue(c: char): (v: int)
    ensures -1 <= v < 64
    ensures v >= 0 ==> SextetChar(v) == c
  {
    if 'A' <= c <= 'Z' then c as int - 'A' as int
    else if 'a' <= c <= 'z' then c as int - 'a' as int + 26
    else if '0' <= c <= '9' then c as int - '0' as int + 52
    else if c == '+' then 62
    else if c == '/' then 63
    else -1
  }

  lemma SextetRoundTrip(i: nat)
    requires i < 64
    ensures SextetValue(SextetChar(i)) == i
  {
  }

  /**
   * Every three bytes become four characters; a last group of one or two bytes is padded
   * with '=', so every started group of three bytes takes four characters.
   */
  function Encode(b: seq<Byte>): (s: string)
    ensures |s| == 4 * ((|b| + 2) / 3)
    decreases |b|
  {
    if |b| == 0 then ""
    else if |b| == 1 then
      [SextetChar(b[0] / 4), SextetChar((b[0] % 4) * 16)] + "=="
    else if |b| == 2 then
      [SextetChar(b[0] / 4), SextetChar((b[0] % 4) * 16 + b[1] / 16), SextetChar((b[1] % 16) * 4)] + "="
    else FullGroup(b[0], b[1], b[2]) + Encode(b[3..])
  }

  /** The four characters of a full group of three bytes: their 24 bits, six at a time. */
  function FullGroup(b0: Byte, b1: Byte, b2: Byte): (s: string)
    ensures |s| == 4
  {
    [SextetChar(b0 / 4), SextetChar((b0 % 4) * 16 + b1 / 16), SextetChar((b1 % 16) * 4 + b2 / 64), SextetChar(b2 % 64)]
  }

  /**
   * The inverse of `Encode`: `None` for text that `Encode` never produces (a length that is
   * not a multiple of four, a foreign character, misplaced or non-canonical padding).
   */
  function Decode(s: string): Option<seq<Byte>>
    decreases |s|
  {
    if |s| == 0 then Some([])
    else if |s| < 4 then None
    else
      var i0 := SextetValue(s[0]);
      var i1 := SextetValue(s[1]);
      var i2 := SextetValue(s[2]);
      var i3 := SextetValue(s[3]);
      if i0 < 0 || i1 < 0 then None
      else if s[2] == '=' && s[3] == '=' then
        if |s| == 4 && i1 % 16 == 0 then Some([i0 * 4 + i1 / 16]) else None
      else if i2 < 0 then None
      else if s[3] == '=' then
        if |s| == 4 && i2 % 4 == 0 then Some([i0 * 4 + i1 / 16, (i1 % 16) * 16 + i2 / 4]) else None
      else if i3 < 0 then None
      else match Decode(s[4..])
        case None => None
        case Some(rest) => Some([i0 * 4 + i1 / 16, (i1 % 16) * 16 + i2 / 4, (i2 % 4) * 64 + i3] + rest)
  }

  /** The three bytes of a full group come back from their four sextets. */
  lemma GroupOfThree(b0: Byte, b1: Byte, b2: Byte)
    ensures var i0, i1, i2, i3 := b0 / 4, (b0 % 4) * 16 + b1 / 16, (b1 % 16) * 4 + b2 / 64, b2 % 64;
      && i0 < 64 && i1 < 64 && i2 < 64 && i3 < 64
      && i0 * 4 + i1 / 16 == b0
      && (i1 % 16) * 16 + i2 / 4 == b1
      && (i2 % 4) * 64 + i3 == b2
  {
  }

  /** The two bytes of a last, short group come back from their three sextets. */
  lemma GroupOfTwo(b0: Byte, b1: Byte)
    ensures var i0, i1, i2 := b0 / 4, (b0 % 4) * 16 + b1 / 16, (b1 % 16) * 4;
      && i0 < 64 && i1 < 64 && i2 < 64 && i2 % 4 == 0
      && i0 * 4 + i1 / 16 == b0
      && (i1 % 16) * 16 + i2 / 4 == b1
  {
  }

  /** Decoding undoes encoding, for every byte sequence. */
  lemma {:induction false} DecodeEncode(b: seq<Byte>)
    ensures Decode(Encode(b)) == Some(b)
    decreases |b|
  {
    if |b| == 1 {
      assert b == [b[0]];
      DecodeEncodeOne(b[0]);
    } else if |b| == 2 {
      assert b == [b[0], b[1]];
      DecodeEncodeTwo(b[0], b[1]);
    } else if |b| >= 3 {
      var rest := b[3..];
      assert b == [b[0], b[1], b[2]] + rest;
      DecodeEncode(rest);
      DecodeEncodeGroup(b[0], b[1], b[2], rest);
    }
  }

  lemma DecodeEncodeOne(b0: Byte)
    ensures Decode(Encode([b0])) == Some([b0])
  {
    var i0, i1 := b0 / 4, (b0 % 4) * 16;
    SextetRoundTrip(i0);
    SextetRoundTrip(i1);
    var s := Encode([b0]);
    assert s == [SextetChar(i0), SextetChar(i1), '=', '='];
  }

  lemma DecodeEncodeTwo(b0: Byte, b1: Byte)
    ensures Decode(Encode([b0, b1])) == Some([b0, b1])
  {
    GroupOfTwo(b0, b1);
    var i0, i1, i2 := b0 / 4, (b0 % 4) * 16 + b1 / 16, (b1 % 16) * 4;
    SextetRoundTrip(i0);
    SextetRoundTrip(i1);
    SextetRoundTrip(i2);
    var s := Encode([b0, b1]);
    assert s == [SextetChar(i0), SextetChar(i1), SextetChar(i2), '='];
    assert s[2] != '=' by {
      assert SextetValue('=') == -1;
    }
  }

  lemma DecodeEncodeGroup(b0: Byte, b1: Byte, b2: Byte, rest: seq<Byte>)
    requires Decode(Encode(rest)) == Some(rest)
    ensures Decode(Encode([b0, b1, b2] + rest)) == Some([b0, b1, b2] + rest)
  {
    assert Encode([b0, b1, b2] + rest) == FullGroup(b0, b1, b2) + Encode(rest) by {
      assert ([b0, b1, b2] + rest)[3..] == rest;
    }
    DecodeAfterFullGroup(b0, b1, b2, Encode(rest), rest);
  }

  /** A full group's four characters, then text that decodes, decode to the three bytes, then the rest. */
  lemma DecodeAfterFullGroup(b0: Byte, b1: Byte, b2: Byte, tail: string, r: seq<Byte>)
    requires Decode(tail) == Some(r)
    ensures Decode(FullGroup(b0, b1, b2) + tail) == Some([b0, b1, b2] + r)
  {
    var i0, i1, i2, i3 := b0 / 4, (b0 % 4) * 16 + b1 / 16, (b1 % 16) * 4 + b2 / 64, b2 % 64;
    GroupOfThree(b0, b1, b2);
    SextetRoundTrip(i0);
    SextetRoundTrip(i1);
    SextetRoundTrip(i2);
    SextetRoundTrip(i3);
    DecodeFullGroup(SextetChar(i0), SextetChar(i1), SextetChar(i2), SextetChar(i3), tail, r);
    assert [i0 * 4 + i1 / 16, (i1 % 16) * 16 + i2 / 4, (i2 % 4) * 64 + i3] == [b0, b1, b2];
  }

  /** Four base64 characters, then text that decodes, decode to the group's three bytes, then the rest. */
  lemma DecodeFullGroup(c0: char, c1: char, c2: char, c3: char, tail: string, r: seq<Byte>)
    requires SextetValue(c0) >= 0 && SextetValue(c1) >= 0 && SextetValue(c2) >= 0 && SextetValue(c3) >= 0
    requires Decode(tail) == Some(r)
    ensures var i0, i1, i2, i3 := SextetValue(c0), SextetValue(c1), SextetValue(c2), SextetValue(c3);
      Decode([c0, c1, c2, c3] + tail) == Some([i0 * 4 + i1 / 16, (i1 % 16) * 16 + i2 / 4, (i2 % 4) * 64 + i3] + r)
  {
    var s := [c0, c1, c2, c3] + tail;
    assert s[..4] == [c0, c1, c2, c3] && s[4..] == tail;
    assert c2 != '=' && c3 != '=' by {
      assert SextetValue('=') == -1;
    }
  }

  /** The UTF-8 bytes of one character (section 3 of RFC 3629). */
  function Utf8Char(c: char): (r: seq<Byte>)
    ensures 1 <= |r| <= 4
    ensures (c as int < 0x80) <==> r == [c as int]
  {
    var v := c as int;
    if v < 0x80 then [v]
    else if v < 0x800 then [0xC0 + v / 64, 0x80 + v % 64]
    else if v < 0x1_0000 then [0xE0 + v / 4096, 0x80 + (v / 64) % 64, 0x80 + v % 64]
    else [0xF0 + v / 0x4_0000, 0x80 + (v / 4096) % 64, 0x80 + (v / 64) % 64, 0x80 + v % 64]
  }

  /** `Buffer.from(s)`: the UTF-8 bytes of a string. */
  function Utf8(s: string): seq<Byte> {
    if s == [] then [] else Utf8Char(s[0]) + Utf8(s[1..])
  }

  predicate IsAscii(s: string) {
    forall i :: 0 <= i < |s| ==> s[i] as int < 0x80
  }

  /** An ASCII string is encoded one byte per character, each byte its character code. */
  lemma {:induction false} Utf8OfAscii(s: string)
    requires IsAscii(s)
    ensures |Utf8(s)| == |s|
    ensures forall i :: 0 <= i < |s| ==> Utf8(s)[i] == s[i] as int
  {
    if s != [] {
      Utf8OfAscii(s[1..]);
      assert Utf8(s) == [s[0] as int] + Utf8(s[1..]);
    }
  }
}
