/** The base64 encoding of section 4 of RFC 4648 (the standard alphabet with
    `=` padding), as Python's `base64.b64encode` produces it. */
module Base64 {
  import opened Bytes
  import opened Wrappers

  predicate IsAlphabet(c: char) {
    'A' <= c <= 'Z' || 'a' <= c <= 'z' || '0' <= c <= '9' || c == '+' || c == '/'
  }

  /** Table 1 of RFC 4648: the character for a 6-bit value. */
  function Char(n: int): (c: char)
    requires 0 <= n < 64
    ensures IsAlphabet(c)
  {
    if n < 26 then ('A' as int + n) as char
    else if n < 52 then ('a' as int + n - 26) as char
    else if n < 62 then ('0' as int + n - 52) as char
    else if n == 62 then '+'
    else '/'
  }

  /** The 6-bit value of an alphabet character. */
  function Value(c: char): (n: Option<int>)
    ensures n.Some? <==> IsAlphabet(c)
    ensures n.Some? ==> 0 <= n.value < 64
  {
    if 'A' <= c <= 'Z' then Some(c as int - 'A' as int)
    else if 'a' <= c <= 'z' then Some(c as int - 'a' as int + 26)
    else if '0' <= c <= '9' then Some(c as int - '0' as int + 52)
    else if c == '+' then Some(62)
    else if c == '/' then Some(63)
    else None
  }

  predicate IsEncoding(s: string) {
    forall i :: 0 <= i < |s| ==> IsAlphabet(s[i]) || (s[i] == '=' && i >= |s| - 2)
  }

  /** The four characters for the first three bytes. */
  function FirstGroup(bs: seq<byte>): (g: string)
    requires |bs| >= 3
    ensures |g| == 4 && IsEncoding(g)
  {
    [Char(bs[0] / 4), Char((bs[0] % 4) * 16 + bs[1] / 16),
     Char((bs[1] % 16) * 4 + bs[2] / 64), Char(bs[2] % 64)]
  }

  /** The padded group for a final one or two bytes. */
  function LastGroup(bs: seq<byte>): (g: string)
    requires 1 <= |bs| <= 2
    ensures |g| == 4 && IsEncoding(g)
  {
    if |bs| == 1 then [Char(bs[0] / 4), Char((bs[0] % 4) * 16), '=', '=']
    else [Char(bs[0] / 4), Char((bs[0] % 4) * 16 + bs[1] / 16), Char((bs[1] % 16) * 4), '=']
  }

  /** Groups of three bytes become four characters; a final group of one or
      two bytes is padded with `=` to four characters. */
  function Encode(bs: seq<byte>): (r: string)
  {
    if bs == [] then []
    else if |bs| < 3 then LastGroup(bs)
    else FirstGroup(bs) + Encode(bs[3..])
  }

  /** An input of n bytes encodes to 4 * ceil(n / 3) characters. */
  lemma {:induction false} EncodeLength(bs: seq<byte>)
    ensures |Encode(bs)| == 4 * ((|bs| + 2) / 3)
  {
    if |bs| >= 3 {
      EncodeLength(bs[3..]);
      EncodeSplit(bs);
      assert (|bs[3..]| + 2) / 3 + 1 == (|bs| + 2) / 3;
    }
  }

  lemma EncodingAppend(a: string, b: string)
    requires IsEncoding(a) && |a| == 4
    requires IsEncoding(b)
    requires forall i :: 0 <= i < |a| ==> a[i] != '='
    ensures IsEncoding(a + b)
  {
  }

  /** Every character of an encoding is from the alphabet of section 4 of
      RFC 4648, except for `=` padding in the last two positions. */
  lemma {:induction false} EncodeAlphabet(bs: seq<byte>)
    ensures IsEncoding(Encode(bs))
  {
    if |bs| >= 3 {
      EncodeAlphabet(bs[3..]);
      EncodingAppend(FirstGroup(bs), Encode(bs[3..]));
    }
  }

  /** One group of four characters, padded only when `last` holds. */
  function DecodeGroup(q: string, last: bool): (r: Option<seq<byte>>)
    requires |q| == 4
  {
    match (Value(q[0]), Value(q[1]), Value(q[2]), Value(q[3]))
    case (Some(a), Some(b), Some(c), Some(d)) =>
      Some([a * 4 + b / 16, (b % 16) * 16 + c / 4, (c % 4) * 64 + d])
    case (Some(a), Some(b), Some(c), None) =>
      if last && q[3] == '=' && c % 4 == 0 then Some([a * 4 + b / 16, (b % 16) * 16 + c / 4]) else None
    case (Some(a), Some(b), None, None) =>
      if last && q[2] == '=' && q[3] == '=' && b % 16 == 0 then Some([a * 4 + b / 16]) else None
    case _ => None
  }

  /** The decoder the encoder is checked against. */
  function Decode(s: string): (r: Option<seq<byte>>)
    decreases |s|
  {
    if s == [] then Some([])
    else if |s| < 4 then None
    else match (DecodeGroup(s[..4], |s| == 4), Decode(s[4..]))
      case (Some(g), Some(rest)) => Some(g + rest)
      case _ => None
  }

  lemma ValueOfChar(n: int)
    requires 0 <= n < 64
    ensures Value(Char(n)) == Some(n)
  {
  }

  lemma GroupOfThree(b0: byte, b1: byte, b2: byte, last: bool)
    ensures DecodeGroup([Char(b0 / 4), Char((b0 % 4) * 16 + b1 / 16), Char((b1 % 16) * 4 + b2 / 64), Char(b2 % 64)], last)
         == Some([b0, b1, b2])
  {
    var c1, c2 := (b0 % 4) * 16 + b1 / 16, (b1 % 16) * 4 + b2 / 64;
    ValueOfChar(b0 / 4);
    ValueOfChar(c1);
    ValueOfChar(c2);
    ValueOfChar(b2 % 64);
    assert c1 / 16 == b0 % 4 && c1 % 16 == b1 / 16;
    assert c2 / 4 == b1 % 16 && c2 % 4 == b2 / 64;
  }

  lemma GroupOfTwo(b0: byte, b1: byte)
    ensures DecodeGroup([Char(b0 / 4), Char((b0 % 4) * 16 + b1 / 16), Char((b1 % 16) * 4), '='], true)
         == Some([b0, b1])
  {
    var c1 := (b0 % 4) * 16 + b1 / 16;
    ValueOfChar(b0 / 4);
    ValueOfChar(c1);
    ValueOfChar((b1 % 16) * 4);
    assert c1 / 16 == b0 % 4 && c1 % 16 == b1 / 16;
  }

  lemma GroupOfOne(b0: byte)
    ensures DecodeGroup([Char(b0 / 4), Char((b0 % 4) * 16), '=', '='], true) == Some([b0])
  {
    ValueOfChar(b0 / 4);
    ValueOfChar((b0 % 4) * 16);
  }

  lemma DecodeEncodeOne(bs: seq<byte>)
    requires |bs| == 1
    ensures Decode(Encode(bs)) == Some(bs)
  {
    GroupOfOne(bs[0]);
    assert bs == [bs[0]];
    DecodeStep(Encode(bs), [], bs, []);
    assert Encode(bs) + [] == Encode(bs) && bs + [] == bs;
  }

  lemma DecodeEncodeTwo(bs: seq<byte>)
    requires |bs| == 2
    ensures Decode(Encode(bs)) == Some(bs)
  {
    GroupOfTwo(bs[0], bs[1]);
    assert bs == [bs[0], bs[1]];
    DecodeStep(Encode(bs), [], bs, []);
    assert Encode(bs) + [] == Encode(bs) && bs + [] == bs;
  }

  lemma DecodeStep(g: string, rest: string, bs: seq<byte>, tail: seq<byte>)
    requires |g| == 4
    requires DecodeGroup(g, |rest| == 0) == Some(bs)
    requires Decode(rest) == Some(tail)
    ensures Decode(g + rest) == Some(bs + tail)
  {
    var s := g + rest;
    assert s[..4] == g && s[4..] == rest;
  }

  lemma DecodeFirstGroup(bs: seq<byte>, last: bool)
    requires |bs| >= 3
    ensures DecodeGroup(FirstGroup(bs), last) == Some(bs[..3])
  {
    GroupOfThree(bs[0], bs[1], bs[2], last);
    assert bs[..3] == [bs[0], bs[1], bs[2]];
  }

  lemma DecodeEncodeGroup(bs: seq<byte>)
    requires |bs| >= 3
    requires Decode(Encode(bs[3..])) == Some(bs[3..])
    ensures Decode(Encode(bs)) == Some(bs)
  {
    EncodeSplit(bs);
    DecodeGroupStep(bs, Encode(bs[3..]));
  }

  lemma EncodeSplit(bs: seq<byte>)
    requires |bs| >= 3
    ensures Encode(bs) == FirstGroup(bs) + Encode(bs[3..])
  {
  }

  lemma DecodeGroupStep(bs: seq<byte>, rest: string)
    requires |bs| >= 3
    requires Decode(rest) == Some(bs[3..])
    ensures Decode(FirstGroup(bs) + rest) == Some(bs)
  {
    DecodeFirstGroup(bs, |rest| == 0);
    DecodeStep(FirstGroup(bs), rest, bs[..3], bs[3..]);
    assert bs[..3] + bs[3..] == bs;
  }

  /** Decoding an encoding gives the bytes back. */
  lemma {:induction false} DecodeEncode(bs: seq<byte>)
    ensures Decode(Encode(bs)) == Some(bs)
  {
    if |bs| == 1 {
      DecodeEncodeOne(bs);
    } else if |bs| == 2 {
      DecodeEncodeTwo(bs);
    } else if |bs| >= 3 {
      DecodeEncode(bs[3..]);
      DecodeEncodeGroup(bs);
    }
  }
}
