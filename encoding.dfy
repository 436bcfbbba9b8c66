/** The two encodings inside `sha256sum`: `text.encode("utf-8")` before
    hashing and `hexdigest()` after. */
module Encoding {
  import opened Json

  type byte = x: int | 0 <= x < 256

  predicate IsContinuation(b: byte)
  {
    0x80 <= b < 0xC0
  }

  /** The UTF-8 encoding of one Unicode scalar value (RFC 3629, section 3). */
  function EncodeChar(c: char): (bs: seq<byte>)
    ensures 1 <= |bs| <= 4
    ensures forall i :: 1 <= i < |bs| ==> IsContinuation(bs[i])
  {
    var n := c as int;
    if n < 0x80 then [n]
    else if n < 0x800 then [0xC0 + n / 64, 0x80 + n % 64]
    else if n < 0x10000 then [0xE0 + n / 4096, 0x80 + (n / 64) % 64, 0x80 + n % 64]
    else [0xF0 + n / 262144, 0x80 + (n / 4096) % 64, 0x80 + (n / 64) % 64, 0x80 + n % 64]
  }

  /** `s.encode("utf-8")`. */
  function EncodeUtf8(s: string): seq<byte>
  {
    if s == [] then [] else EncodeChar(s[0]) + EncodeUtf8(s[1..])
  }

  /** How many bytes a sequence starting with `b` occupies (0: not a lead byte). */
  function SequenceLength(b: byte): nat
  {
    if b < 0x80 then 1
    else if 0xC0 <= b < 0xE0 then 2
    else if 0xE0 <= b < 0xF0 then 3
    else if 0xF0 <= b < 0xF8 then 4
    else 0
  }

  /** The code point of one complete sequence. */
  function CodePoint(bs: seq<byte>): int
    requires 1 <= |bs| <= 4
  {
    var b0, b1, b2, b3 := bs[0] as int, Low6(bs, 1), Low6(bs, 2), Low6(bs, 3);
    if |bs| == 1 then b0
    else if |bs| == 2 then (b0 - 0xC0) * 64 + b1
    else if |bs| == 3 then ((b0 - 0xE0) * 64 + b1) * 64 + b2
    else (((b0 - 0xF0) * 64 + b1) * 64 + b2) * 64 + b3
  }

  /** The six payload bits of continuation byte `i`, 0 when absent. */
  function Low6(bs: seq<byte>, i: nat): int
  {
    if i < |bs| then bs[i] as int - 0x80 else 0
  }

  predicate IsScalar(n: int)
  {
    0 <= n < 0xD800 || 0xE000 <= n < 0x110000
  }

  /** `bs.decode("utf-8")`, None where Python would raise. Overlong forms are
      not rejected: the decoder is only ever applied to encoder output here. */
  function DecodeUtf8(bs: seq<byte>): Option<string>
    decreases |bs|
  {
    if bs == [] then Some([])
    else
      var k := SequenceLength(bs[0]);
      if k == 0 || |bs| < k then None
      else
        var n := CodePoint(bs[..k]);
        if !IsScalar(n) then None
        else match DecodeUtf8(bs[k..])
          case None => None
          case Some(rest) => Some([n as char] + rest)
  }

  lemma {:induction false} EncodeCharDecodes(c: char)
    ensures SequenceLength(EncodeChar(c)[0]) == |EncodeChar(c)|
    ensures CodePoint(EncodeChar(c)) == c as int
  {
    var n := c as int;
    var bs := EncodeChar(c);
    if n < 0x80 {
    } else if n < 0x800 {
      assert bs[0] == 0xC0 + n / 64;
      assert n == (n / 64) * 64 + n % 64;
    } else if n < 0x10000 {
      var q := n / 64;
      assert n == q * 64 + n % 64;
      assert q == (q / 64) * 64 + q % 64;
      assert q / 64 == n / 4096;
      assert bs[0] == 0xE0 + q / 64;
    } else {
      var q := n / 64;
      var q2 := q / 64;
      assert n == q * 64 + n % 64;
      assert q == q2 * 64 + q % 64;
      assert q2 == (q2 / 64) * 64 + q2 % 64;
      assert q2 == n / 4096;
      assert q2 / 64 == n / 262144;
      assert bs[0] == 0xF0 + q2 / 64;
    }
  }

  /** Decoding undoes encoding. */
  lemma {:induction false} Utf8RoundTrip(s: string)
    ensures DecodeUtf8(EncodeUtf8(s)) == Some(s)
  {
    if s != [] {
      var e := EncodeChar(s[0]);
      var bs := EncodeUtf8(s);
      EncodeCharDecodes(s[0]);
      Utf8RoundTrip(s[1..]);
      assert bs[..|e|] == e;
      assert bs[|e|..] == EncodeUtf8(s[1..]);
      assert bs[0] == e[0];
      assert (s[0] as int) as char == s[0];
      assert [s[0]] + s[1..] == s;
    }
  }

  /** An ASCII string encodes to its own code units, one byte each. */
  lemma {:induction false} AsciiEncodesToItself(s: string)
    requires forall i :: 0 <= i < |s| ==> s[i] as int < 0x80
    ensures |EncodeUtf8(s)| == |s|
    ensures forall i :: 0 <= i < |s| ==> EncodeUtf8(s)[i] == s[i] as int
  {
    if s != [] {
      AsciiEncodesToItself(s[1..]);
      assert EncodeUtf8(s) == [s[0] as int] + EncodeUtf8(s[1..]);
    }
  }

  predicate IsLowerHex(c: char)
  {
    '0' <= c <= '9' || 'a' <= c <= 'f'
  }

  function HexDigit(d: int): (c: char)
    requires 0 <= d < 16
    ensures IsLowerHex(c)
  {
    "0123456789abcdef"[d]
  }

  function HexValue(c: char): int
  {
    if '0' <= c <= '9' then c as int - '0' as int
    else if 'a' <= c <= 'f' then c as int - 'a' as int + 10
    else 0
  }

  /** `hexdigest()`: two lower-case hex digits per byte, high nibble first. */
  function HexEncode(bs: seq<byte>): (s: string)
    ensures |s| == 2 * |bs|
    ensures forall i :: 0 <= i < |s| ==> IsLowerHex(s[i])
  {
    if bs == [] then "" else [HexDigit(bs[0] / 16), HexDigit(bs[0] % 16)] + HexEncode(bs[1..])
  }

  /** `bytes.fromhex(s)` on a string of even length. */
  function HexDecode(s: string): seq<byte>
    requires |s| % 2 == 0
  {
    if s == [] then []
    else
      var b := HexValue(s[0]) * 16 + HexValue(s[1]);
      [if 0 <= b < 256 then b else 0] + HexDecode(s[2..])
  }

  /** The digest can be read back from its hex form. */
  lemma {:induction false} HexRoundTrip(bs: seq<byte>)
    ensures HexDecode(HexEncode(bs)) == bs
  {
    if bs != [] {
      var s := HexEncode(bs);
      HexRoundTrip(bs[1..]);
      assert s[2..] == HexEncode(bs[1..]);
      HexByte(bs[0]);
    }
  }

  /** One byte survives its two hex digits. */
  lemma HexByte(b: byte)
    ensures HexValue(HexDigit(b / 16)) * 16 + HexValue(HexDigit(b % 16)) == b
  {
    assert HexValue(HexDigit(b / 16)) == b / 16;
    assert HexValue(HexDigit(b % 16)) == b % 16;
  }
}
