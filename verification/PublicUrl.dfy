/** Public URLs of stored objects: the key's segments, each percent-encoded, below a base URL. */
module PublicUrl {
  import opened Options
  import opened Utf8
  import Text
  import Uuid

  // ---- Percent-encoding ----

  /** The bytes url.PathEscape leaves alone: RFC 3986 unreserved characters and the sub-delimiters
      and others that Go keeps inside a path segment. */
  predicate Kept(b: Byte) {
    var c := b as int as char;
    || 'a' <= c <= 'z' || 'A' <= c <= 'Z' || '0' <= c <= '9'
    || c in {'-', '_', '.', '~', '$', '&', '+', '=', ':', '@'}
  }

  function UpperHex(n: int): (c: char)
    requires 0 <= n < 16
    ensures Uuid.HexValue(c) == Some(n as Uuid.Nibble)
    ensures c != '/'
  {
    if n < 10 then (48 + n) as char else (55 + n) as char
  }

  function EscapeByte(b: Byte): (r: string)
    ensures |r| > 0 && '/' !in r
  {
    if Kept(b) then [b as int as char] else ['%', UpperHex(b as int / 16), UpperHex(b as int % 16)]
  }

  /** url.PathEscape. */
  function PathEscape(bs: seq<Byte>): (r: string)
    ensures '/' !in r
  {
    if bs == [] then "" else EscapeByte(bs[0]) + PathEscape(bs[1..])
  }

  /** Percent-decoding, section 2.1 of RFC 3986; None for a malformed triplet or a raw non-ASCII character. */
  function Unescape(s: string): Option<seq<Byte>> {
    if s == "" then Some([])
    else if s[0] == '%' then
      if |s| < 3 || Uuid.HexValue(s[1]).None? || Uuid.HexValue(s[2]).None? then None
      else
        var rest := Unescape(s[3..]);
        if rest.None? then None
        else Some([(Uuid.HexValue(s[1]).value as int * 16 + Uuid.HexValue(s[2]).value as int) as Byte] + rest.value)
    else if s[0] as int >= 0x80 then None
    else
      var rest := Unescape(s[1..]);
      if rest.None? then None else Some([s[0] as int as Byte] + rest.value)
  }

  lemma {:induction false} UnescapeEscape(bs: seq<Byte>)
    ensures Unescape(PathEscape(bs)) == Some(bs)
  {
    if bs != [] {
      UnescapeEscape(bs[1..]);
      OneByte(bs[0], PathEscape(bs[1..]));
      assert bs == [bs[0]] + bs[1..];
    }
  }

  lemma OneByte(b: Byte, tail: string)
    requires Unescape(tail).Some?
    ensures Unescape(EscapeByte(b) + tail) == Some([b] + Unescape(tail).value)
  {
    var s := EscapeByte(b) + tail;
    if Kept(b) {
      assert s[1..] == tail;
    } else {
      assert s[3..] == tail;
      assert s[1] == UpperHex(b as int / 16) && s[2] == UpperHex(b as int % 16);
    }
  }

  /** A character that section 3.3 of RFC 3986 allows in a path segment, of those that Go leaves alone. */
  predicate PlainChar(c: char) {
    || 'a' <= c <= 'z' || 'A' <= c <= 'Z' || '0' <= c <= '9'
    || c == '-' || c == '_' || c == '.' || c == '~' || c == '$' || c == '&' || c == '+' || c == '=' || c == ':' || c == '@'
  }

  predicate UpperHexDigit(c: char) {
    '0' <= c <= '9' || 'A' <= c <= 'F'
  }

  /** A byte is left alone exactly when it is a plain character; any other becomes a percent sign and
      two upper-case digits. */
  lemma EscapedShape(b: Byte)
    ensures PlainChar(b as int as char) ==> EscapeByte(b) == [b as int as char]
    ensures !PlainChar(b as int as char) ==>
              var r := EscapeByte(b);
              |r| == 3 && r[0] == '%' && UpperHexDigit(r[1]) && UpperHexDigit(r[2])
  {
  }

  /** Text made of plain characters is not changed. */
  lemma {:induction false} PlainUnchanged(s: string)
    requires forall i :: 0 <= i < |s| ==> PlainChar(s[i])
    ensures PathEscape(Encode(s)) == s
  {
    if s != "" {
      PlainUnchanged(s[1..]);
      var bs := EncodeChar(s[0]) + Encode(s[1..]);
      assert EncodeChar(s[0]) == [s[0] as int as Byte];
      assert bs[1..] == Encode(s[1..]);
      assert s == [s[0]] + s[1..];
    }
  }

  /** An escaped text holds plain characters and percent signs only: no space, question mark or hash. */
  lemma {:induction false} EscapedCharacters(bs: seq<Byte>)
    ensures forall i :: 0 <= i < |PathEscape(bs)| ==> PlainChar(PathEscape(bs)[i]) || PathEscape(bs)[i] == '%'
  {
    if bs != [] {
      hide Kept;
      EscapedShape(bs[0]);
      EscapedCharacters(bs[1..]);
    }
  }

  // ---- Segments ----

  function EscapeSegment(segment: string): (r: string)
    ensures '/' !in r
  {
    if segment == "." then "%2E"
    else if segment == ".." then "%2E%2E"
    else PathEscape(Encode(segment))
  }

  /** A segment of a URL path back to the text it stands for. */
  function ReadSegment(s: string): Option<string> {
    var bytes := Unescape(s);
    if bytes.None? then None else Decode(bytes.value)
  }

  lemma DotSegments()
    ensures ReadSegment("%2E") == Some(".") && ReadSegment("%2E%2E") == Some("..")
  {
    var one := "%2E";
    var none, dot: seq<Byte> := [], [0x2E];
    assert dot + none == dot && dot + dot == [0x2E, 0x2E];
    assert Unescape("") == Some(none);
    assert one[3..] == "";
    assert Uuid.HexValue(one[1]) == Some(2) && Uuid.HexValue(one[2]) == Some(14);
    assert Unescape(one) == Some([0x2E]);
    var two := "%2E%2E";
    assert two[3..] == one && two[1] == one[1] && two[2] == one[2];
    assert Unescape(two) == Some([0x2E, 0x2E]);
    DecodeEncode(".");
    DecodeEncode("..");
    assert ".."[1..] == "." && "."[1..] == "";
    assert Encode(".") == [0x2E] && Encode("..") == [0x2E, 0x2E];
  }

  lemma SegmentRoundTrip(segment: string)
    ensures ReadSegment(EscapeSegment(segment)) == Some(segment)
  {
    hide Unescape, PathEscape, Encode, Decode;
    if segment == "." || segment == ".." {
      DotSegments();
    } else {
      UnescapeEscape(Encode(segment));
      DecodeEncode(segment);
    }
  }

  /** No segment of the path is a dot segment in the sense of section 5.2.4 of RFC 3986. */
  lemma NoDotSegment(segment: string)
    ensures EscapeSegment(segment) != "." && EscapeSegment(segment) != ".."
  {
    if segment != "." && segment != ".." {
      hide Unescape, PathEscape, Encode, Decode;
      SegmentRoundTrip(segment);
      PlainDots();
    }
  }

  lemma PlainDots()
    ensures ReadSegment(".") == Some(".") && ReadSegment("..") == Some("..")
  {
    var none, dot: seq<Byte> := [], [0x2E];
    assert dot + none == dot && dot + dot == [0x2E, 0x2E];
    assert ".."[1..] == "." && "."[1..] == "";
    assert Unescape("") == Some(none);
    assert Unescape(".") == Some([0x2E]) && Unescape("..") == Some([0x2E, 0x2E]);
    DecodeEncode(".");
    DecodeEncode("..");
    assert Encode(".") == [0x2E] && Encode("..") == [0x2E, 0x2E];
  }

  // ---- Whole keys ----

  function EscapeAll(segments: seq<string>): (r: seq<string>)
    ensures |r| == |segments|
    ensures forall i :: 0 <= i < |r| ==> r[i] == EscapeSegment(segments[i])
  {
    seq(|segments|, i requires 0 <= i < |segments| => EscapeSegment(segments[i]))
  }

  function ReadAll(segments: seq<string>): Option<seq<string>> {
    if segments == [] then Some([])
    else
      var last := |segments| - 1;
      var before, segment := ReadAll(segments[..last]), ReadSegment(segments[last]);
      if before.None? || segment.None? then None else Some(before.value + [segment.value])
  }

  /** Splitting a URL path below the base at its slashes and decoding every segment. */
  function ReadPath(path: string): Option<string> {
    var segments := ReadAll(Text.Split(path, '/'));
    if segments.None? then None else Some(Text.Join(segments.value, '/'))
  }

  lemma {:induction false} ReadEscaped(segments: seq<string>)
    ensures ReadAll(EscapeAll(segments)) == Some(segments)
  {
    if segments != [] {
      hide ReadSegment, EscapeSegment;
      var last := |segments| - 1;
      ReadEscaped(segments[..last]);
      SegmentRoundTrip(segments[last]);
      assert EscapeAll(segments)[..last] == EscapeAll(segments[..last]);
      assert segments == segments[..last] + [segments[last]];
    }
  }

  class PublicURLBuilder {
    const baseURL: string

    constructor (baseURL: string)
      ensures this.baseURL == baseURL
    {
      this.baseURL := baseURL;
    }

    method Build(objectKey: Option<string>) returns (url: Option<string>)
      ensures url.None? <==> objectKey.None? || Text.Blank(objectKey.value)
      ensures url.Some? ==> url.value == baseURL + "/" + PathOf(Text.TrimSpace(objectKey.value))
    {
      hide Text.TrimSpace, EscapeSegment;
      if objectKey.None? {
        return None;
      }
      var key := Text.TrimSpace(objectKey.value);
      if key == "" {
        return None;
      }
      var split := Text.Split(key, '/');
      var segments := new string[|split|](i requires 0 <= i < |split| => split[i]);
      for i := 0 to segments.Length
        invariant segments[..i] == EscapeAll(split)[..i]
        invariant forall k :: i <= k < segments.Length ==> segments[k] == split[k]
      {
        segments[i] := EscapeSegment(segments[i]);
        assert segments[..i + 1] == segments[..i] + [segments[i]];
      }
      assert segments[..] == segments[..segments.Length] == EscapeAll(split);
      return Some(baseURL + "/" + Text.Join(segments[..], '/'));
    }
  }

  /** The part of the URL below the base. */
  function PathOf(key: string): string {
    Text.Join(EscapeAll(Text.Split(key, '/')), '/')
  }

  /** Reading the path back gives the key. */
  lemma PathRoundTrip(key: string)
    ensures ReadPath(PathOf(key)) == Some(key)
    ensures Text.Split(PathOf(key), '/') == EscapeAll(Text.Split(key, '/'))
  {
    hide EscapeSegment, ReadAll, Text.Split, Text.Join;
    var segments := Text.Split(key, '/');
    Text.SplitJoin(EscapeAll(segments), '/');
    ReadEscaped(segments);
    Text.JoinSplit(key, '/');
  }

  /** Every segment of the path consists of plain characters and percent signs, and a segment of plain
      characters that is no dot segment stands in it as it is. */
  lemma SegmentCharacters(key: string, i: nat)
    requires i < |Text.Split(PathOf(key), '/')|
    ensures i < |Text.Split(key, '/')|
    ensures
      var was, now := Text.Split(key, '/')[i], Text.Split(PathOf(key), '/')[i];
      && (forall j :: 0 <= j < |now| ==> PlainChar(now[j]) || now[j] == '%')
      && (was != "." && was != ".." && (forall j :: 0 <= j < |was| ==> PlainChar(was[j])) ==> now == was)
  {
    hide PathOf, Text.Split, Encode, PathEscape, PlainChar;
    PathRoundTrip(key);
    var was := Text.Split(key, '/')[i];
    EscapedCharacters(Encode(was));
    DotsEscaped();
    if forall j :: 0 <= j < |was| ==> PlainChar(was[j]) {
      PlainUnchanged(was);
    }
  }

  lemma DotsEscaped()
    ensures forall j :: 0 <= j < |"%2E"| ==> PlainChar("%2E"[j]) || "%2E"[j] == '%'
    ensures forall j :: 0 <= j < |"%2E%2E"| ==> PlainChar("%2E%2E"[j]) || "%2E%2E"[j] == '%'
  {
  }

  /** Distinct trimmed keys have distinct URLs below one base. */
  lemma UrlInjective(baseURL: string, a: string, b: string)
    requires baseURL + "/" + PathOf(a) == baseURL + "/" + PathOf(b)
    ensures a == b
  {
    hide PathOf, ReadPath;
    var head := baseURL + "/";
    assert (head + PathOf(a))[|head|..] == PathOf(a) && (head + PathOf(b))[|head|..] == PathOf(b);
    PathRoundTrip(a);
    PathRoundTrip(b);
  }

  /** No segment below the base is a dot segment. */
  lemma NoDotSegments(key: string, i: nat)
    requires i < |Text.Split(PathOf(key), '/')|
    ensures Text.Split(PathOf(key), '/')[i] != "." && Text.Split(PathOf(key), '/')[i] != ".."
  {
    hide EscapeSegment, PathOf, Text.Split;
    PathRoundTrip(key);
    NoDotSegment(Text.Split(key, '/')[i]);
  }
}
