/**
 * The two text encodings the library uses, with the strict error handling it
 * asks for: UTF-16 little-endian (RFC 2781) for 'utxt' data and for every
 * string it sends, and 7-bit ASCII for 'TEXT' data. Strings are sequences of
 * Unicode scalar values.
 */
module Encoding {
  import opened Prelude
  import opened Sys

  // ---------------------------------------------------------------------
  // UTF-16LE
  // ---------------------------------------------------------------------

  predicate IsHighSurrogate(u: int) { 0xD800 <= u < 0xDC00 }
  predicate IsLowSurrogate(u: int) { 0xDC00 <= u < 0xE000 }

  /** The code unit stored little-endian in `lo`, `hi`. */
  function Unit(lo: byte, hi: byte): (u: int)
    ensures 0 <= u < 0x1_0000
  {
    lo as int + hi as int * 0x100
  }

  /** The two bytes of code unit `u`, low byte first. */
  function UnitBytes(u: int): (b: seq<byte>)
    requires 0 <= u < 0x1_0000
    ensures |b| == 2 && Unit(b[0], b[1]) == u
  {
    [(u % 0x100) as byte, (u / 0x100) as byte]
  }

  /** The UTF-16LE bytes of one scalar value: one code unit, or a surrogate pair. */
  function CharBytes(c: char): (b: seq<byte>)
    ensures |b| == 2 || |b| == 4
  {
    var v := c as int;
    if v < 0x1_0000 then UnitBytes(v)
    else
      var w := v - 0x1_0000;
      UnitBytes(0xD800 + w / 0x400) + UnitBytes(0xDC00 + w % 0x400)
  }

  /** The number of UTF-16 code units of `s`: one per character, two for those beyond the Basic Multilingual Plane. */
  function Units(s: string): (n: nat)
    ensures |s| <= n <= 2 * |s|
  {
    if s == [] then 0 else (if s[0] as int < 0x1_0000 then 1 else 2) + Units(s[1..])
  }

  /** Strict UTF-16LE encoding of `s`; it cannot fail for a sequence of scalar values. */
  function EncodeUtf16(s: string): (b: seq<byte>)
    ensures |b| == 2 * Units(s)
  {
    if s == [] then [] else CharBytes(s[0]) + EncodeUtf16(s[1..])
  }

  /**
   * Strict UTF-16LE decoding: `None` for an odd trailing byte, a high
   * surrogate not followed by a low one, or a low surrogate on its own.
   */
  function DecodeUtf16(b: seq<byte>): (r: Option<string>)
    decreases |b|
  {
    if |b| == 0 then Some([])
    else if |b| == 1 then None
    else
      var u := Unit(b[0], b[1]);
      if !IsHighSurrogate(u) && !IsLowSurrogate(u) then
        match DecodeUtf16(b[2..])
        case Some(rest) => Some([u as char] + rest)
        case None => None
      else if IsHighSurrogate(u) && |b| >= 4 && IsLowSurrogate(Unit(b[2], b[3])) then
        var v := 0x1_0000 + (u - 0xD800) * 0x400 + (Unit(b[2], b[3]) - 0xDC00);
        match DecodeUtf16(b[4..])
        case Some(rest) => Some([v as char] + rest)
        case None => None
      else None
  }

  lemma DecodeCharBytes(c: char, rest: seq<byte>)
    ensures DecodeUtf16(CharBytes(c) + rest) ==
      (match DecodeUtf16(rest) case Some(t) => Some([c] + t) case None => None)
  {
    var b := CharBytes(c) + rest;
    var v := c as int;
    if v < 0x1_0000 {
      assert b[2..] == rest;
    } else {
      var w := v - 0x1_0000;
      assert b[4..] == rest;
      assert Unit(b[0], b[1]) == 0xD800 + w / 0x400;
      assert Unit(b[2], b[3]) == 0xDC00 + w % 0x400;
    }
  }

  /** Decoding undoes encoding: every string survives a UTF-16LE round trip. */
  lemma {:induction false} DecodeEncodeUtf16(s: string)
    ensures DecodeUtf16(EncodeUtf16(s)) == Some(s)
  {
    if s != [] {
      DecodeEncodeUtf16(s[1..]);
      DecodeCharBytes(s[0], EncodeUtf16(s[1..]));
      assert [s[0]] + s[1..] == s;
    }
  }

  lemma UnitBytesOfUnit(lo: byte, hi: byte)
    ensures UnitBytes(Unit(lo, hi)) == [lo, hi]
  {
  }

  lemma SurrogatePairBytes(u: int, u2: int)
    requires IsHighSurrogate(u) && IsLowSurrogate(u2)
    ensures var v := 0x1_0000 + (u - 0xD800) * 0x400 + (u2 - 0xDC00);
      0x1_0000 <= v < 0x11_0000 && CharBytes(v as char) == UnitBytes(u) + UnitBytes(u2)
  {
    var w := (u - 0xD800) * 0x400 + (u2 - 0xDC00);
    assert w / 0x400 == u - 0xD800 && w % 0x400 == u2 - 0xDC00;
  }

  /** Encoding undoes decoding: bytes that decode are exactly the encoding of what they decode to. */
  lemma {:induction false} EncodeDecodeUtf16(b: seq<byte>)
    ensures DecodeUtf16(b).Some? ==> EncodeUtf16(DecodeUtf16(b).value) == b
    decreases |b|
  {
    if |b| >= 2 && DecodeUtf16(b).Some? {
      var u := Unit(b[0], b[1]);
      var s := DecodeUtf16(b).value;
      UnitBytesOfUnit(b[0], b[1]);
      if !IsHighSurrogate(u) && !IsLowSurrogate(u) {
        EncodeDecodeUtf16(b[2..]);
        assert s[1..] == DecodeUtf16(b[2..]).value;
        assert CharBytes(s[0]) == b[..2];
        assert b == b[..2] + b[2..];
      } else {
        var u2 := Unit(b[2], b[3]);
        UnitBytesOfUnit(b[2], b[3]);
        SurrogatePairBytes(u, u2);
        EncodeDecodeUtf16(b[4..]);
        assert s[1..] == DecodeUtf16(b[4..]).value;
        assert CharBytes(s[0]) == b[..2] + b[2..4];
        assert b == b[..2] + b[2..4] + b[4..];
      }
    }
  }

  /** An odd number of bytes never decodes. */
  lemma {:induction false} OddLengthRejected(b: seq<byte>)
    requires |b| % 2 == 1
    ensures DecodeUtf16(b) == None
    decreases |b|
  {
    if |b| > 1 {
      OddLengthRejected(b[2..]);
      if |b| >= 4 {
        OddLengthRejected(b[4..]);
      }
    }
  }

  // ---------------------------------------------------------------------
  // ASCII
  // ---------------------------------------------------------------------

  /** Strict ASCII decoding: `None` as soon as one byte has its high bit set. */
  function DecodeAscii(b: seq<byte>): (r: Option<string>)
  {
    if b == [] then Some([])
    else if b[0] >= 0x80 then None
    else match DecodeAscii(b[1..])
      case Some(rest) => Some([b[0] as int as char] + rest)
      case None => None
  }

  /** ASCII decoding succeeds exactly on 7-bit bytes, and then maps each byte to the character of the same number. */
  lemma {:induction false} DecodeAsciiExactly(b: seq<byte>)
    ensures DecodeAscii(b).Some? <==> forall i | 0 <= i < |b| :: b[i] < 0x80
    ensures DecodeAscii(b).Some? ==>
      |DecodeAscii(b).value| == |b| && forall i | 0 <= i < |b| :: DecodeAscii(b).value[i] as int == b[i] as int
  {
    if b != [] {
      DecodeAsciiExactly(b[1..]);
      if b[0] < 0x80 && DecodeAscii(b[1..]).Some? {
        var s := DecodeAscii(b).value;
        forall i | 1 <= i < |b|
          ensures s[i] as int == b[i] as int
        {
          assert s[i] == DecodeAscii(b[1..]).value[i - 1];
        }
      }
      if DecodeAscii(b).None? && b[0] < 0x80 {
        var k :| 0 <= k < |b[1..]| && b[1..][k] >= 0x80;
        assert b[k + 1] >= 0x80;
      }
    }
  }
}
