/** UTF-8 of Unicode scalar values. */
module Utf8 {
  import opened Options

  newtype Byte = x: int | 0 <= x < 256

  function EncodeChar(c: char): (r: seq<Byte>)
    ensures 1 <= |r| <= 4
  {
    var n := c as int;
    if n < 0x80 then [n as Byte]
    else if n < 0x800 then [(0xC0 + n / 64) as Byte, (0x80 + n % 64) as Byte]
    else if n < 0x1_0000 then [(0xE0 + n / 4096) as Byte, (0x80 + n / 64 % 64) as Byte, (0x80 + n % 64) as Byte]
    else
      [(0xF0 + n / 262144) as Byte, (0x80 + n / 4096 % 64) as Byte, (0x80 + n / 64 % 64) as Byte, (0x80 + n % 64) as Byte]
  }

  function Encode(s: string): seq<Byte> {
    if s == "" then [] else EncodeChar(s[0]) + Encode(s[1..])
  }

  /** The length its first byte announces. */
  function SequenceLength(lead: Byte): int {
    if lead < 0x80 then 1 else if lead < 0xE0 then 2 else if lead < 0xF0 then 3 else 4
  }

  function CodePoint(bs: seq<Byte>): int
    requires |bs| > 0 && |bs| >= SequenceLength(bs[0])
  {
    var lead := bs[0] as int;
    if lead < 0x80 then lead
    else if lead < 0xE0 then (lead - 0xC0) * 64 + (bs[1] as int - 0x80)
    else if lead < 0xF0 then (lead - 0xE0) * 4096 + (bs[1] as int - 0x80) * 64 + (bs[2] as int - 0x80)
    else (lead - 0xF0) * 262144 + (bs[1] as int - 0x80) * 4096 + (bs[2] as int - 0x80) * 64 + (bs[3] as int - 0x80)
  }

  predicate IsScalar(n: int) {
    0 <= n < 0xD800 || 0xE000 <= n < 0x11_0000
  }

  /** Reads well-formed text back; None for a truncated sequence or a value that is no scalar. */
  function Decode(bs: seq<Byte>): Option<string> {
    if bs == [] then Some("")
    else
      var k := SequenceLength(bs[0]);
      if |bs| < k || !IsScalar(CodePoint(bs)) then None
      else
        var rest := Decode(bs[k..]);
        if rest.None? then None else Some([CodePoint(bs) as char] + rest.value)
  }

  lemma CharRoundTrip(c: char, rest: seq<Byte>)
    ensures
      var bs := EncodeChar(c) + rest;
      && SequenceLength(bs[0]) == |EncodeChar(c)|
      && CodePoint(bs) == c as int
      && bs[|EncodeChar(c)|..] == rest
  {
    var n := c as int;
    assert n / 64 / 64 == n / 4096;
    assert n / 4096 / 64 == n / 262144;
  }

  lemma {:induction false} DecodeEncode(s: string)
    ensures Decode(Encode(s)) == Some(s)
  {
    if s != "" {
      hide EncodeChar, CodePoint;
      CharRoundTrip(s[0], Encode(s[1..]));
      DecodeEncode(s[1..]);
      assert s == [s[0]] + s[1..];
    }
  }
}
