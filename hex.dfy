/** Lowercase hexadecimal text, as Python's `hexdigest()` and `UUID.hex` write it. */
module Hex {
  import opened Bytes
  import opened Wrappers

  const Digits: string := "0123456789abcdef"

  predicate IsLowerHexDigit(c: char) {
    '0' <= c <= '9' || 'a' <= c <= 'f'
  }

  predicate IsLowerHex(s: string) {
    forall i :: 0 <= i < |s| ==> IsLowerHexDigit(s[i])
  }

  function Digit(n: int): (c: char)
    requires 0 <= n < 16
    ensures IsLowerHexDigit(c)
  {
    Digits[n]
  }

  function DigitValue(c: char): (n: Option<int>)
    ensures n.Some? <==> IsLowerHexDigit(c)
    ensures n.Some? ==> 0 <= n.value < 16
  {
    if '0' <= c <= '9' then Some(c as int - '0' as int)
    else if 'a' <= c <= 'f' then Some(c as int - 'a' as int + 10)
    else None
  }

  /** The two digits of one byte, high nibble first. */
  function Pair(b: byte): (p: string)
    ensures |p| == 2 && IsLowerHexDigit(p[0]) && IsLowerHexDigit(p[1])
  {
    [Digit(b / 16), Digit(b % 16)]
  }

  function Encode(bs: seq<byte>): string {
    if bs == [] then [] else Pair(bs[0]) + Encode(bs[1..])
  }

  /** Reads back what `Encode` writes; `None` for odd length or a non-digit. */
  function Decode(s: string): (r: Option<seq<byte>>)
    decreases |s|
  {
    if s == [] then Some([])
    else if |s| == 1 then None
    else match (DigitValue(s[0]), DigitValue(s[1]), Decode(s[2..]))
      case (Some(hi), Some(lo), Some(rest)) => Some([hi * 16 + lo] + rest)
      case _ => None
  }

  lemma DigitValueOfDigit(n: int)
    requires 0 <= n < 16
    ensures DigitValue(Digit(n)) == Some(n)
  {
  }

  /** Two characters per byte, all of them lowercase hex digits. */
  lemma {:induction false} EncodeShape(bs: seq<byte>)
    ensures |Encode(bs)| == 2 * |bs|
    ensures IsLowerHex(Encode(bs))
  {
    if bs != [] {
      EncodeShape(bs[1..]);
      var p, r := Pair(bs[0]), Encode(bs[1..]);
      assert forall i :: 0 <= i < |p + r| ==> (p + r)[i] == if i < 2 then p[i] else r[i - 2];
    }
  }

  /** Byte `i` is written as the digits at positions `2 * i` and `2 * i + 1`. */
  lemma {:induction false} EncodeAt(bs: seq<byte>, i: int)
    requires 0 <= i < |bs|
    ensures |Encode(bs)| == 2 * |bs|
    ensures Encode(bs)[2 * i] == Digit(bs[i] / 16) && Encode(bs)[2 * i + 1] == Digit(bs[i] % 16)
  {
    EncodeShape(bs);
    var p, r := Pair(bs[0]), Encode(bs[1..]);
    assert Encode(bs) == p + r;
    if i > 0 {
      EncodeAt(bs[1..], i - 1);
      assert (p + r)[2 * i] == r[2 * (i - 1)] && (p + r)[2 * i + 1] == r[2 * (i - 1) + 1];
    }
  }

  lemma DecodePair(b: byte, rest: string, tail: seq<byte>)
    requires Decode(rest) == Some(tail)
    ensures Decode(Pair(b) + rest) == Some([b] + tail)
  {
    var s := Pair(b) + rest;
    DigitValueOfDigit(b / 16);
    DigitValueOfDigit(b % 16);
    assert s[0] == Digit(b / 16) && s[1] == Digit(b % 16) && s[2..] == rest;
  }

  lemma {:induction false} DecodeEncode(bs: seq<byte>)
    ensures Decode(Encode(bs)) == Some(bs)
  {
    if bs != [] {
      DecodeEncode(bs[1..]);
      DecodePair(bs[0], Encode(bs[1..]), bs[1..]);
      assert [bs[0]] + bs[1..] == bs;
    }
  }

  /** Two byte strings with the same hex text are equal. */
  lemma EncodeInjective(a: seq<byte>, b: seq<byte>)
    ensures Encode(a) == Encode(b) <==> a == b
  {
    if Encode(a) == Encode(b) {
      DecodeEncode(a);
      DecodeEncode(b);
    }
  }
}
