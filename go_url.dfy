/**
 * Go's url.PathEscape: the bytes of a string escaped so that the result can
 * stand as one segment of a URL path.
 */
module GoUrl {
  import opened GoStrings

  predicate InRange(b: byte, lo: char, hi: char)
  {
    lo as int <= b <= hi as int
  }

  /** The unreserved characters of section 2.3 of RFC 3986. */
  predicate IsUnreserved(b: byte)
  {
    InRange(b, 'a', 'z') || InRange(b, 'A', 'Z') || InRange(b, '0', '9')
    || b == '-' as int || b == '_' as int || b == '.' as int || b == '~' as int
  }

  /**
   * shouldEscape(b, encodePathSegment): everything but the unreserved
   * characters and the reserved characters a path segment may carry as they
   * are (`$ & + : = @`); in particular `/`, `;`, `,`, `?` and `%` are escaped.
   */
  predicate ShouldEscape(b: byte)
  {
    !(IsUnreserved(b)
      || b == '$' as int || b == '&' as int || b == '+' as int
      || b == ':' as int || b == '=' as int || b == '@' as int)
  }

  /** The upper-case hexadecimal digit for 0 <= d < 16, as a byte. */
  function HexDigit(d: int): (r: byte)
    requires 0 <= d < 16
    ensures InRange(r, '0', '9') || InRange(r, 'A', 'F')
  {
    if d < 10 then '0' as int + d else 'A' as int + (d - 10)
  }

  /** The value of an upper-case hexadecimal digit. */
  function HexValue(b: byte): int
  {
    if InRange(b, '0', '9') then b - '0' as int
    else if InRange(b, 'A', 'F') then b - 'A' as int + 10
    else 0
  }

  lemma HexDigitValue(d: int)
    requires 0 <= d < 16
    ensures HexValue(HexDigit(d)) == d
  {
  }

  /** One byte as url.PathEscape writes it. */
  function EscapeByte(b: byte): (r: seq<byte>)
    ensures |r| == 1 || |r| == 3
    ensures ShouldEscape(b) <==> |r| == 3
    ensures |r| == 1 ==> r[0] == b
    ensures |r| == 3 ==> r[0] == '%' as int && HexValue(r[1]) * 16 + HexValue(r[2]) == b
  {
    if ShouldEscape(b) then
      HexDigitValue(b / 16);
      HexDigitValue(b % 16);
      ['%' as int, HexDigit(b / 16), HexDigit(b % 16)]
    else [b]
  }

  /** The escaped form of a byte string: every byte of it is ASCII and none is `/`. */
  function EscapeBytes(bs: seq<byte>): (r: seq<byte>)
    ensures |r| >= |bs|
    ensures forall i | 0 <= i < |r| :: r[i] < 0x80 && r[i] != '/' as int
  {
    if |bs| == 0 then [] else EscapeByte(bs[0]) + EscapeBytes(bs[1..])
  }

  /** Reads back escaped bytes: `%XY` is the byte 0xXY, any other byte stands for itself. */
  function Unescape(r: seq<byte>): seq<byte>
  {
    if |r| >= 3 && r[0] == '%' as int then
      var v := HexValue(r[1]) * 16 + HexValue(r[2]);
      (if 0 <= v < 0x100 then [v] else [0]) + Unescape(r[3..])
    else if |r| > 0 then [r[0]] + Unescape(r[1..])
    else []
  }

  /** Escaping loses nothing: unescaping gives the original bytes back. */
  lemma {:induction false} UnescapeEscapeBytes(bs: seq<byte>)
    ensures Unescape(EscapeBytes(bs)) == bs
  {
    if |bs| > 0 {
      var head := EscapeByte(bs[0]);
      UnescapeEscapeBytes(bs[1..]);
      assert EscapeBytes(bs) == head + EscapeBytes(bs[1..]);
      if |head| == 3 {
        assert (head + EscapeBytes(bs[1..]))[3..] == EscapeBytes(bs[1..]);
      } else {
        assert head[0] != '%' as int;
        assert (head + EscapeBytes(bs[1..]))[1..] == EscapeBytes(bs[1..]);
      }
    }
  }

  /** Bytes below 0x80 read as the characters they encode. */
  function AsciiString(r: seq<byte>): (s: string)
    requires forall i | 0 <= i < |r| :: r[i] < 0x80
    ensures |s| == |r| && forall i | 0 <= i < |r| :: s[i] as int == r[i]
  {
    if |r| == 0 then [] else [r[0] as char] + AsciiString(r[1..])
  }

  /** url.PathEscape(s) */
  function PathEscape(s: string): (r: string)
    ensures '/' !in r
    ensures |r| >= |s|
    ensures Utf8(r) == EscapeBytes(Utf8(s))
  {
    var e := EscapeBytes(Utf8(s));
    var r := AsciiString(e);
    assert IsAscii(r);
    Utf8OfAscii(r);
    assert Utf8(r) == e;
    r
  }

  /** The bytes of the escaped string read back as the bytes of `s`. */
  lemma PathEscapeRoundTrip(s: string)
    ensures Unescape(Utf8(PathEscape(s))) == Utf8(s)
  {
    UnescapeEscapeBytes(Utf8(s));
  }

  /** A string made only of characters a path segment may hold is not changed. */
  lemma {:induction false} PathEscapeOfPlain(s: string)
    requires forall i | 0 <= i < |s| :: s[i] as int < 0x80 && !ShouldEscape(s[i] as int)
    ensures PathEscape(s) == s
  {
    assert IsAscii(s);
    Utf8OfAscii(s);
    EscapeBytesOfPlain(Utf8(s));
    assert EscapeBytes(Utf8(s)) == Utf8(s);
    var r := PathEscape(s);
    assert |r| == |s|;
    assert forall i | 0 <= i < |s| :: r[i] as int == s[i] as int;
  }

  lemma {:induction false} EscapeBytesOfPlain(bs: seq<byte>)
    requires forall i | 0 <= i < |bs| :: !ShouldEscape(bs[i])
    ensures EscapeBytes(bs) == bs
  {
    if |bs| > 0 {
      EscapeBytesOfPlain(bs[1..]);
    }
  }
}
