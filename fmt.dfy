/** Go's `fmt` verb `% X` applied to a byte slice: each byte as two
    upper-case hex digits, one space between bytes; with its inverse. */
module Fmt {
  import opened Types

  function UpperHexDigit(d: nat): (c: char)
    requires d < 16
    ensures '0' <= c <= '9' || 'A' <= c <= 'F'
  {
    if d < 10 then ('0' as int + d) as char else ('A' as int + d - 10) as char
  }

  /** The value of an upper-case hex digit, `None` for any other character. */
  function HexDigitValue(c: char): (d: Option<nat>)
    ensures d.Some? ==> d.value < 16 && UpperHexDigit(d.value) == c
  {
    if '0' <= c <= '9' then Some(c as int - '0' as int)
    else if 'A' <= c <= 'F' then Some(c as int - 'A' as int + 10)
    else None
  }

  lemma HexDigitValueOf(d: nat)
    requires d < 16
    ensures HexDigitValue(UpperHexDigit(d)) == Some(d)
  {
  }

  /** One byte as two upper-case hex digits, high nibble first. */
  function HexByte(b: byte): (s: string)
    ensures |s| == 2
    ensures HexDigitValue(s[0]) == Some(b / 16) && HexDigitValue(s[1]) == Some(b % 16)
  {
    HexDigitValueOf(b / 16);
    HexDigitValueOf(b % 16);
    [UpperHexDigit(b / 16), UpperHexDigit(b % 16)]
  }

  /** `fmt.Sprintf("% X", bs)`. */
  function SpacedHex(bs: seq<byte>): (s: string)
    ensures |s| == if bs == [] then 0 else 3 * |bs| - 1
  {
    if bs == [] then ""
    else if |bs| == 1 then HexByte(bs[0])
    else HexByte(bs[0]) + " " + SpacedHex(bs[1..])
  }

  /** Reads text written by `SpacedHex` back into bytes. */
  function ParseSpacedHex(s: string): (r: Option<seq<byte>>)
    decreases |s|
  {
    if s == [] then Some([])
    else if |s| < 2 then None
    else
      var hi := HexDigitValue(s[0]);
      var lo := HexDigitValue(s[1]);
      if hi.None? || lo.None? then None
      else
        var b: byte := hi.value * 16 + lo.value;
        if |s| == 2 then Some([b])
        else if |s| < 5 || s[2] != ' ' then None
        else match ParseSpacedHex(s[3..])
          case None => None
          case Some(rest) => Some([b] + rest)
  }

  /** Byte `i` is rendered at positions 3i and 3i+1, and a single space
      follows it unless it is the last byte. */
  lemma {:induction false} SpacedHexAt(bs: seq<byte>, i: nat)
    requires i < |bs|
    ensures SpacedHex(bs)[3 * i] == UpperHexDigit(bs[i] / 16)
    ensures SpacedHex(bs)[3 * i + 1] == UpperHexDigit(bs[i] % 16)
    ensures i + 1 < |bs| ==> SpacedHex(bs)[3 * i + 2] == ' '
  {
    if i > 0 {
      SpacedHexAt(bs[1..], i - 1);
      var s := SpacedHex(bs);
      assert s == HexByte(bs[0]) + " " + SpacedHex(bs[1..]);
      assert s[3..] == SpacedHex(bs[1..]);
    }
  }

  /** `SpacedHex` loses nothing: the header bytes can be read back from it. */
  lemma {:induction false} ParseSpacedHexRoundTrip(bs: seq<byte>)
    ensures ParseSpacedHex(SpacedHex(bs)) == Some(bs)
  {
    if bs != [] {
      HexDigitValueOf(bs[0] / 16);
      HexDigitValueOf(bs[0] % 16);
    }
    if |bs| == 1 {
      assert SpacedHex(bs) == HexByte(bs[0]);
      assert [bs[0]] == bs;
    } else if |bs| >= 2 {
      var s := SpacedHex(bs);
      assert s[..3] == HexByte(bs[0]) + " ";
      assert s[3..] == SpacedHex(bs[1..]);
      ParseSpacedHexRoundTrip(bs[1..]);
      assert HexDigitValue(s[0]) == Some(bs[0] / 16);
      assert HexDigitValue(s[1]) == Some(bs[0] % 16);
      assert s[2] == ' ';
      assert ParseSpacedHex(s[3..]) == Some(bs[1..]);
      assert [bs[0]] + bs[1..] == bs;
    }
  }

  /** Different headers render differently. */
  lemma SpacedHexInjective(a: seq<byte>, b: seq<byte>)
    requires SpacedHex(a) == SpacedHex(b)
    ensures a == b
  {
    ParseSpacedHexRoundTrip(a);
    ParseSpacedHexRoundTrip(b);
  }
}
