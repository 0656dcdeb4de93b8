/** Base64 as section 4 of RFC 4648 defines it: every 3 bytes become 4 characters of the
    64-letter alphabet, and a final group of 1 or 2 bytes is padded with `=` to 4 characters. */
module Base64 {
  import opened Wrappers
  import opened Bytes

  type Sextet = x: int | 0 <= x < 64

  /** The alphabet of Table 1 of RFC 4648: A-Z, a-z, 0-9, `+`, `/`. */
  function SextetChar(v: Sextet): char {
    if v < 26 then ('A' as int + v) as char
    else if v < 52 then ('a' as int + (v - 26)) as char
    else if v < 62 then ('0' as int + (v - 52)) as char
    else if v == 62 then '+'
    else '/'
  }

  function CharSextet(c: char): Option<Sextet> {
    if 'A' <= c <= 'Z' then Some(c as int - 'A' as int)
    else if 'a' <= c <= 'z' then Some(c as int - 'a' as int + 26)
    else if '0' <= c <= '9' then Some(c as int - '0' as int + 52)
    else if c == '+' then Some(62)
    else if c == '/' then Some(63)
    else None
  }

  lemma CharSextetOfSextetChar(v: Sextet)
    ensures CharSextet(SextetChar(v)) == Some(v)
  {
  }

  predicate IsAlphabetChar(c: char) {
    CharSextet(c).Some?
  }

  // Encoding one group. The bit layout: 8+8+8 input bits are read as 6+6+6+6 output bits.

  function EncodeGroup(b0: Byte, b1: Byte, b2: Byte): string {
    [SextetChar(b0 / 4), SextetChar((b0 % 4) * 16 + b1 / 16),
     SextetChar((b1 % 16) * 4 + b2 / 64), SextetChar(b2 % 64)]
  }

  function EncodeTwo(b0: Byte, b1: Byte): string {
    [SextetChar(b0 / 4), SextetChar((b0 % 4) * 16 + b1 / 16), SextetChar((b1 % 16) * 4), '=']
  }

  function EncodeOne(b0: Byte): string {
    [SextetChar(b0 / 4), SextetChar((b0 % 4) * 16), '=', '=']
  }

  /** `base64.b64encode(data)`. */
  function Encode(data: seq<Byte>): (r: string)
    ensures |r| == 4 * ((|data| + 2) / 3)
    ensures forall i :: 0 <= i < |r| ==> IsAlphabetChar(r[i]) || r[i] == '='
    decreases |data|
  {
    if |data| == 0 then ""
    else if |data| == 1 then EncodeOne(data[0])
    else if |data| == 2 then EncodeTwo(data[0], data[1])
    else EncodeGroup(data[0], data[1], data[2]) + Encode(data[3..])
  }

  /** The decoder of a receiving server: quartets of alphabet characters, the last one possibly padded. */
  function Decode(s: string): Option<seq<Byte>>
    decreases |s|
  {
    if |s| == 0 then Some([])
    else if |s| < 4 then None
    else
      var c0, c1, c2, c3 := CharSextet(s[0]), CharSextet(s[1]), CharSextet(s[2]), CharSextet(s[3]);
      if c0.None? || c1.None? then None
      else if |s| == 4 && s[2] == '=' && s[3] == '=' then
        Some([c0.value * 4 + c1.value / 16])
      else if |s| == 4 && c2.Some? && s[3] == '=' then
        Some([c0.value * 4 + c1.value / 16, (c1.value % 16) * 16 + c2.value / 4])
      else if c2.None? || c3.None? then None
      else
        match Decode(s[4..])
        case None => None
        case Some(rest) =>
          Some([c0.value * 4 + c1.value / 16, (c1.value % 16) * 16 + c2.value / 4,
                (c2.value % 4) * 64 + c3.value] + rest)
  }

  lemma GroupBits(b0: Byte, b1: Byte, b2: Byte)
    ensures b0 == (b0 / 4) * 4 + ((b0 % 4) * 16 + b1 / 16) / 16
    ensures b1 == (((b0 % 4) * 16 + b1 / 16) % 16) * 16 + ((b1 % 16) * 4 + b2 / 64) / 4
    ensures b2 == (((b1 % 16) * 4 + b2 / 64) % 4) * 64 + b2 % 64
  {
  }

  lemma DecodeOne(b0: Byte)
    ensures Decode(EncodeOne(b0)) == Some([b0])
  {
    CharSextetOfSextetChar(b0 / 4);
    CharSextetOfSextetChar((b0 % 4) * 16);
    GroupBits(b0, 0, 0);
  }

  lemma DecodeTwo(b0: Byte, b1: Byte)
    ensures Decode(EncodeTwo(b0, b1)) == Some([b0, b1])
  {
    CharSextetOfSextetChar(b0 / 4);
    CharSextetOfSextetChar((b0 % 4) * 16 + b1 / 16);
    CharSextetOfSextetChar((b1 % 16) * 4);
    GroupBits(b0, b1, 0);
    var e := EncodeTwo(b0, b1);
    assert e[3] == '=' && e[2] != '=';
  }

  lemma DecodeGroup(b0: Byte, b1: Byte, b2: Byte, rest: string, tail: seq<Byte>)
    requires Decode(rest) == Some(tail)
    ensures Decode(EncodeGroup(b0, b1, b2) + rest) == Some([b0, b1, b2] + tail)
  {
    CharSextetOfSextetChar(b0 / 4);
    CharSextetOfSextetChar((b0 % 4) * 16 + b1 / 16);
    CharSextetOfSextetChar((b1 % 16) * 4 + b2 / 64);
    CharSextetOfSextetChar(b2 % 64);
    GroupBits(b0, b1, b2);
    var e := EncodeGroup(b0, b1, b2) + rest;
    assert e[4..] == rest;
    assert e[2] != '=' && e[3] != '=';
  }

  lemma DecodeEncodeShort(data: seq<Byte>)
    requires |data| < 3
    ensures Decode(Encode(data)) == Some(data)
  {
    if |data| == 1 {
      DecodeOne(data[0]);
      assert data == [data[0]];
    } else if |data| == 2 {
      DecodeTwo(data[0], data[1]);
      assert data == [data[0], data[1]];
    }
  }

  lemma {:induction false} DecodeEncodeStep(data: seq<Byte>)
    requires |data| >= 3
    requires Decode(Encode(data[3..])) == Some(data[3..])
    ensures Decode(Encode(data)) == Some(data)
  {
    DecodeGroup(data[0], data[1], data[2], Encode(data[3..]), data[3..]);
    assert data == [data[0], data[1], data[2]] + data[3..];
  }

  /** Decoding an encoding gives back the bytes. */
  lemma {:induction false} DecodeEncode(data: seq<Byte>)
    ensures Decode(Encode(data)) == Some(data)
    decreases |data|
  {
    if |data| < 3 {
      DecodeEncodeShort(data);
    } else {
      DecodeEncode(data[3..]);
      DecodeEncodeStep(data);
    }
  }
}
