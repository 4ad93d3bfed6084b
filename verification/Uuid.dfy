/** UUIDs with the textual forms that google/uuid writes and reads. */
module Uuid {
  import opened Options
  import Text

  newtype Nibble = x: int | 0 <= x < 16

  const ZERO_DIGITS: seq<Nibble> :=
    [0, 0, 0, 0, 0, 0, 0, 0, 0, 0, 0, 0, 0, 0, 0, 0, 0, 0, 0, 0, 0, 0, 0, 0, 0, 0, 0, 0, 0, 0, 0, 0]

  datatype Bits = Bits(digits: seq<Nibble>)

  /** A UUID as its 32 hexadecimal digits, most significant first. */
  type UUID = id: Bits | |id.digits| == 32 witness Bits(ZERO_DIGITS)

  /** uuid.Nil. */
  const NIL: UUID := Bits(ZERO_DIGITS)

  function HexDigit(n: Nibble): (c: char)
    ensures '0' <= c <= '9' || 'a' <= c <= 'f'
    ensures HexValue(c) == Some(n)
  {
    if n < 10 then (48 + n as int) as char else (87 + n as int) as char
  }

  function HexValue(c: char): (r: Option<Nibble>) {
    if '0' <= c <= '9' then Some((c as int - 48) as Nibble)
    else if 'a' <= c <= 'f' then Some((c as int - 87) as Nibble)
    else if 'A' <= c <= 'F' then Some((c as int - 55) as Nibble)
    else None
  }

  function HexDigits(digits: seq<Nibble>): (s: string)
    ensures |s| == |digits|
    ensures forall i :: 0 <= i < |s| ==> s[i] == HexDigit(digits[i])
  {
    seq(|digits|, i requires 0 <= i < |digits| => HexDigit(digits[i]))
  }

  predicate IdText(s: string) {
    forall i :: 0 <= i < |s| ==> s[i] == '-' || '0' <= s[i] <= '9' || 'a' <= s[i] <= 'f'
  }

  /** Two groups with a dash between them. */
  function Dash(a: string, b: string): (r: string)
    requires IdText(a) && IdText(b)
    ensures IdText(r) && |r| == |a| + 1 + |b|
  {
    a + ("-" + b)
  }

  /** UUID.String: the five groups of 8, 4, 4, 4 and 12 digits. */
  function ToString(id: UUID): (s: string)
    ensures |s| == 36
    ensures forall i :: 0 <= i < 36 ==> s[i] == '-' || '0' <= s[i] <= '9' || 'a' <= s[i] <= 'f'
  {
    var h := HexDigits(id.digits);
    Dash(h[..8], Dash(h[8..12], Dash(h[12..16], Dash(h[16..20], h[20..]))))
  }

  /** Every character of s as a hexadecimal digit, if all of them are one. */
  function ParseHex(s: string): (r: Option<seq<Nibble>>)
    ensures r.Some? ==> |r.value| == |s|
    ensures r.Some? <==> forall i :: 0 <= i < |s| ==> HexValue(s[i]).Some?
    ensures r.Some? ==> forall i :: 0 <= i < |s| ==> HexValue(s[i]) == Some(r.value[i])
  {
    if forall i :: 0 <= i < |s| ==> HexValue(s[i]).Some? then
      Some(seq(|s|, i requires 0 <= i < |s| && HexValue(s[i]).Some? => HexValue(s[i]).value))
    else None
  }

  function WithoutDashes(s: string): (r: string)
    requires |s| >= 36
    ensures |r| == 32
  {
    s[..8] + s[9..13] + s[14..18] + s[19..23] + s[24..36]
  }

  function ParseGrouped(s: string): (r: Option<UUID>)
    requires |s| >= 36
  {
    if s[8] != '-' || s[13] != '-' || s[18] != '-' || s[23] != '-' then None
    else
      match ParseHex(WithoutDashes(s))
      case None => None
      case Some(digits) => Some(Bits(digits))
  }

  /** uuid.Parse: the plain form, the urn:uuid: form, the form with one character on either
      side (the library does not look at these two), and the form without dashes. */
  function Parse(s: string): (r: Option<UUID>)
  {
    if |s| == 36 then ParseGrouped(s)
    else if |s| == 45 then
      if Text.Lower(s[..9]) == "urn:uuid:" then ParseGrouped(s[9..]) else None
    else if |s| == 38 then ParseGrouped(s[1..])
    else if |s| == 32 then
      match ParseHex(s)
      case None => None
      case Some(digits) => Some(Bits(digits))
    else None
  }

  lemma DashesRemoved(id: UUID)
    ensures WithoutDashes(ToString(id)) == HexDigits(id.digits)
  {
    var h := HexDigits(id.digits);
    var s := ToString(id);
    assert s[..8] == h[..8];
    assert s[9..13] == h[8..12];
    assert s[14..18] == h[12..16];
    assert s[19..23] == h[16..20];
    assert s[24..36] == h[20..];
    assert h == h[..8] + h[8..12] + h[12..16] + h[16..20] + h[20..];
  }

  /** Parsing the canonical text of a UUID gives the UUID back. */
  lemma ParseToString(id: UUID)
    ensures Parse(ToString(id)) == Some(id)
  {
    DashesRemoved(id);
    var h := HexDigits(id.digits);
    assert forall i :: 0 <= i < |h| ==> HexValue(h[i]) == Some(id.digits[i]);
    assert ParseHex(h).Some? && ParseHex(h).value == id.digits;
  }

  lemma ToStringTrimmed(id: UUID)
    ensures Text.TrimSpace(ToString(id)) == ToString(id)
  {
    var s := ToString(id);
    assert !Text.IsSpace(s[0]) && !Text.IsSpace(s[35]);
  }
}
