/** UTF-8 as section 3 of RFC 3629 defines it, restricted to the scalar values a Dafny `char` holds. */
module Utf8 {
  import opened Wrappers
  import opened Bytes

  predicate IsContinuation(b: Byte) {
    0x80 <= b < 0xC0
  }

  /** The 1 to 4 bytes of one code point, shortest form. */
  function EncodeChar(c: char): (r: seq<Byte>)
    ensures 1 <= |r| <= 4
    ensures |r| == 1 <==> c as int < 0x80
    ensures forall i :: 1 <= i < |r| ==> IsContinuation(r[i])
  {
    var cp := c as int;
    if cp < 0x80 then [cp]
    else if cp < 0x800 then [0xC0 + cp / 64, 0x80 + cp % 64]
    else if cp < 0x1_0000 then [0xE0 + cp / 4096, 0x80 + (cp / 64) % 64, 0x80 + cp % 64]
    else [0xF0 + cp / 262144, 0x80 + (cp / 4096) % 64, 0x80 + (cp / 64) % 64, 0x80 + cp % 64]
  }

  /** `s.encode('utf-8')`. */
  function Encode(s: string): (r: seq<Byte>)
    ensures |r| >= |s|
    ensures (forall i :: 0 <= i < |s| ==> s[i] as int < 0x80) ==> |r| == |s|
  {
    if |s| == 0 then [] else EncodeChar(s[0]) + Encode(s[1..])
  }

  /** A strict decoder: rejects overlong forms, surrogates, values past U+10FFFF and truncated sequences. */
  function Decode(bs: seq<Byte>): Option<string>
    decreases |bs|
  {
    if |bs| == 0 then Some("")
    else
      var b0: int := bs[0];
      if b0 < 0x80 then
        PrependTo(b0 as char, Decode(bs[1..]))
      else if 0xC2 <= b0 < 0xE0 && |bs| >= 2 && IsContinuation(bs[1]) then
        var cp: int := (b0 - 0xC0) * 64 + (bs[1] as int - 0x80);
        PrependTo(cp as char, Decode(bs[2..]))
      else if 0xE0 <= b0 < 0xF0 && |bs| >= 3 && IsContinuation(bs[1]) && IsContinuation(bs[2]) then
        var cp: int := (b0 - 0xE0) * 4096 + (bs[1] as int - 0x80) * 64 + (bs[2] as int - 0x80);
        if cp < 0x800 || 0xD800 <= cp < 0xE000 then None
        else PrependTo(cp as char, Decode(bs[3..]))
      else if 0xF0 <= b0 < 0xF5 && |bs| >= 4 && IsContinuation(bs[1]) && IsContinuation(bs[2])
              && IsContinuation(bs[3]) then
        var cp: int := (b0 - 0xF0) * 262144 + (bs[1] as int - 0x80) * 4096 + (bs[2] as int - 0x80) * 64 + (bs[3] as int - 0x80);
        if cp < 0x1_0000 || cp >= 0x11_0000 then None
        else PrependTo(cp as char, Decode(bs[4..]))
      else None
  }

  function PrependTo(c: char, rest: Option<string>): Option<string> {
    match rest
    case None => None
    case Some(t) => Some([c] + t)
  }

  lemma DecodeCharThen(c: char, rest: seq<Byte>)
    ensures Decode(EncodeChar(c) + rest) == PrependTo(c, Decode(rest))
  {
    var cp := c as int;
    if cp < 0x80 {
      DecodeOneByte(c, rest);
    } else if cp < 0x800 {
      DecodeTwoBytes(c, rest);
    } else if cp < 0x1_0000 {
      DecodeThreeBytes(c, rest);
    } else {
      DecodeFourBytes(c, rest);
    }
  }

  lemma DecodeOneByte(c: char, rest: seq<Byte>)
    requires c as int < 0x80
    ensures Decode(EncodeChar(c) + rest) == PrependTo(c, Decode(rest))
  {
    var bs := EncodeChar(c) + rest;
    assert bs[1..] == rest;
  }

  lemma DecodeTwoBytes(c: char, rest: seq<Byte>)
    requires 0x80 <= c as int < 0x800
    ensures Decode(EncodeChar(c) + rest) == PrependTo(c, Decode(rest))
  {
    var cp := c as int;
    var bs := EncodeChar(c) + rest;
    assert bs[2..] == rest;
    assert (cp / 64) * 64 + cp % 64 == cp;
  }

  lemma DecodeThreeBytes(c: char, rest: seq<Byte>)
    requires 0x800 <= c as int < 0x1_0000
    ensures Decode(EncodeChar(c) + rest) == PrependTo(c, Decode(rest))
  {
    var cp := c as int;
    var bs := EncodeChar(c) + rest;
    assert bs[3..] == rest;
    SplitThree(cp);
  }

  lemma DecodeFourBytes(c: char, rest: seq<Byte>)
    requires 0x1_0000 <= c as int
    ensures Decode(EncodeChar(c) + rest) == PrependTo(c, Decode(rest))
  {
    var cp := c as int;
    var bs := EncodeChar(c) + rest;
    assert bs[4..] == rest;
    SplitFour(cp);
  }

  /** The three six-bit groups of a 16-bit value put back together. */
  lemma SplitThree(cp: nat)
    ensures (cp / 4096) * 4096 + ((cp / 64) % 64) * 64 + cp % 64 == cp
  {
    var q := cp / 64;
    assert q * 64 + cp % 64 == cp;
    assert (q / 64) * 64 + q % 64 == q;
    assert cp / 4096 == q / 64;
  }

  /** The four six-bit groups of a 21-bit value put back together. */
  lemma SplitFour(cp: nat)
    ensures (cp / 262144) * 262144 + ((cp / 4096) % 64) * 4096 + ((cp / 64) % 64) * 64 + cp % 64 == cp
  {
    var q := cp / 64;
    var p := q / 64;
    assert q * 64 + cp % 64 == cp;
    assert p * 64 + q % 64 == q;
    assert (p / 64) * 64 + p % 64 == p;
    assert cp / 4096 == p;
    assert cp / 262144 == p / 64;
  }

  /** Decoding an encoding gives back the string. */
  lemma {:induction false} DecodeEncode(s: string)
    ensures Decode(Encode(s)) == Some(s)
  {
    if |s| > 0 {
      DecodeEncode(s[1..]);
      DecodeCharThen(s[0], Encode(s[1..]));
      assert s == [s[0]] + s[1..];
    }
  }

  /** Encoding distributes over concatenation. */
  lemma {:induction false} EncodeAppend(a: string, b: string)
    ensures Encode(a + b) == Encode(a) + Encode(b)
  {
    if |a| > 0 {
      assert (a + b)[1..] == a[1..] + b;
      EncodeAppend(a[1..], b);
    } else {
      assert a + b == b;
    }
  }
}
