/** Bytes, and the UTF-8 encoding that Python's `str.encode('utf-8')`
    applies before hashing and before base64 encoding. */
module Bytes {
  type byte = b: int | 0 <= b < 256
}

module Utf8 {
  import opened Bytes
  import opened Wrappers

  /** The UTF-8 encoding of one Unicode scalar value (RFC 3629, section 3). */
  function EncodeChar(c: char): (r: seq<byte>)
    ensures 1 <= |r| <= 4
    ensures |r| == 1 <==> c as int < 0x80
    ensures |r| == 1 ==> r[0] == c as int
    ensures forall i :: 1 <= i < |r| ==> 0x80 <= r[i] < 0xC0
  {
    var cp := c as int;
    if cp < 0x80 then [cp]
    else if cp < 0x800 then [0xC0 + cp / 64, 0x80 + cp % 64]
    else if cp < 0x10000 then [0xE0 + cp / 4096, 0x80 + (cp / 64) % 64, 0x80 + cp % 64]
    else [0xF0 + cp / 262144, 0x80 + (cp / 4096) % 64, 0x80 + (cp / 64) % 64, 0x80 + cp % 64]
  }

  function Encode(s: string): (r: seq<byte>)
    ensures |r| >= |s|
  {
    if s == [] then [] else EncodeChar(s[0]) + Encode(s[1..])
  }

  /** The number of bytes of the sequence that a lead byte starts. */
  function SequenceLength(lead: byte): nat {
    if lead < 0x80 then 1
    else if 0xC0 <= lead < 0xE0 then 2
    else if 0xE0 <= lead < 0xF0 then 3
    else if 0xF0 <= lead < 0xF8 then 4
    else 0
  }

  predicate IsScalar(cp: int) {
    0 <= cp < 0xD800 || 0xE000 <= cp < 0x11_0000
  }

  /** The code point that a complete byte sequence of `SequenceLength` stands for. */
  function CodePoint(b: seq<byte>): int
    requires 1 <= |b| <= 4
  {
    var b0, b1 := b[0] as int, if |b| > 1 then b[1] as int else 0;
    var b2, b3 := if |b| > 2 then b[2] as int else 0, if |b| > 3 then b[3] as int else 0;
    if |b| == 1 then b0
    else if |b| == 2 then (b0 - 0xC0) * 64 + (b1 - 0x80)
    else if |b| == 3 then (b0 - 0xE0) * 4096 + (b1 - 0x80) * 64 + (b2 - 0x80)
    else (b0 - 0xF0) * 262144 + (b1 - 0x80) * 4096 + (b2 - 0x80) * 64 + (b3 - 0x80)
  }

  /** A decoder that undoes `Encode`: the reference the encoder is checked against. */
  function Decode(b: seq<byte>): (r: Option<string>)
    decreases |b|
  {
    if b == [] then Some([])
    else
      var n := SequenceLength(b[0]);
      if n == 0 || |b| < n then None
      else
        var cp := CodePoint(b[..n]);
        if !IsScalar(cp) then None
        else match Decode(b[n..])
          case None => None
          case Some(rest) => Some([cp as char] + rest)
  }

  lemma EncodeCharLength(c: char)
    ensures SequenceLength(EncodeChar(c)[0]) == |EncodeChar(c)|
  {
  }

  /** Splitting off six more bits: `x / 64 / 64 == x / 4096`, with the remainders. */
  lemma SixBits(x: int, d: int)
    requires x >= 0 && (d == 1 || d == 64 || d == 4096)
    ensures x / d == (x / (d * 64)) * 64 + (x / d) % 64
  {
    var q := x / d;
    assert q == (q / 64) * 64 + q % 64;
    if d == 64 {
      assert q / 64 == x / 4096;
    } else if d == 4096 {
      assert q / 64 == x / 262144;
    }
  }

  lemma {:induction false} CodePointOfEncoding(c: char)
    ensures CodePoint(EncodeChar(c)) == c as int
  {
    var cp := c as int;
    if 0x800 <= cp < 0x10000 {
      SixBits(cp, 64);
    } else if cp >= 0x10000 {
      SixBits(cp, 64);
      SixBits(cp, 4096);
    }
  }

  lemma {:induction false} EncodeAppend(a: string, b: string)
    ensures Encode(a + b) == Encode(a) + Encode(b)
  {
    if a == [] {
      assert a + b == b;
    } else {
      assert (a + b)[0] == a[0];
      assert (a + b)[1..] == a[1..] + b;
      EncodeAppend(a[1..], b);
    }
  }

  /** Decoding an encoding gives the string back. */
  lemma {:induction false} DecodeEncode(s: string)
    ensures Decode(Encode(s)) == Some(s)
  {
    if s != [] {
      var e := EncodeChar(s[0]);
      var b := Encode(s);
      assert b == e + Encode(s[1..]);
      EncodeCharLength(s[0]);
      CodePointOfEncoding(s[0]);
      assert b[..|e|] == e;
      assert b[|e|..] == Encode(s[1..]);
      DecodeEncode(s[1..]);
      assert [s[0]] + s[1..] == s;
    }
  }

  predicate IsAscii(s: string) {
    forall i :: 0 <= i < |s| ==> s[i] as int < 0x80
  }

  /** ASCII text encodes byte for byte. */
  lemma {:induction false} EncodeAscii(s: string)
    requires IsAscii(s)
    ensures |Encode(s)| == |s|
    ensures forall i :: 0 <= i < |s| ==> Encode(s)[i] == s[i] as int
  {
    if s != [] {
      assert IsAscii(s[1..]) by {
        forall i | 0 <= i < |s[1..]| ensures s[1..][i] as int < 0x80 {
          assert s[1..][i] == s[i + 1];
        }
      }
      EncodeAscii(s[1..]);
    }
  }
}
