/**
 * The parts of Go's `strings` package and of its UTF-8 string representation
 * that the providers rely on: prefix and suffix tests, trimming, and the
 * encoding of a string's characters as bytes.
 */
module GoStrings {

  /** strings.HasPrefix */
  predicate HasPrefix(s: string, prefix: string)
  {
    prefix <= s
  }

  /** strings.HasSuffix */
  predicate HasSuffix(s: string, suffix: string)
  {
    |suffix| <= |s| && s[|s| - |suffix|..] == suffix
  }

  /**
   * strings.TrimRight(s, cutset) for a cutset of one character: the longest
   * prefix of `s` that does not end in `c`, everything cut being `c`.
   */
  function TrimRight(s: string, c: char): (r: string)
    ensures r <= s
    ensures |r| == 0 || r[|r| - 1] != c
    ensures forall i | |r| <= i < |s| :: s[i] == c
  {
    if |s| > 0 && s[|s| - 1] == c then TrimRight(s[..|s| - 1], c) else s
  }

  /**
   * unicode.IsSpace: the Latin-1 spaces and the other characters with the
   * Unicode White_Space property.
   */
  predicate IsSpace(c: char)
  {
    c == '\t' || c == '\n' || c == '\U{B}' || c == '\U{C}' || c == '\r' || c == ' '
    || c == '\U{85}' || c == '\U{A0}' || c == '\U{1680}'
    || ('\U{2000}' <= c <= '\U{200A}') || c == '\U{2028}' || c == '\U{2029}'
    || c == '\U{202F}' || c == '\U{205F}' || c == '\U{3000}'
  }

  /** How many white-space characters `s` starts with. */
  function LeadingSpaces(s: string): (n: nat)
    ensures n <= |s|
    ensures forall i | 0 <= i < n :: IsSpace(s[i])
    ensures n == |s| || !IsSpace(s[n])
  {
    if |s| > 0 && IsSpace(s[0]) then 1 + LeadingSpaces(s[1..]) else 0
  }

  /** How many white-space characters `s` ends with. */
  function TrailingSpaces(s: string): (n: nat)
    ensures n <= |s|
    ensures forall i | |s| - n <= i < |s| :: IsSpace(s[i])
    ensures n == |s| || !IsSpace(s[|s| - n - 1])
  {
    if |s| > 0 && IsSpace(s[|s| - 1]) then 1 + TrailingSpaces(s[..|s| - 1]) else 0
  }

  /**
   * strings.TrimSpace: `s` without its leading and trailing white space; what
   * is kept is one contiguous slice of `s` with no space at either end.
   */
  function TrimSpace(s: string): (r: string)
    ensures var lead := LeadingSpaces(s);
      lead + |r| <= |s| && r == s[lead..lead + |r|]
      && (forall i | 0 <= i < lead :: IsSpace(s[i]))
      && (forall i | lead + |r| <= i < |s| :: IsSpace(s[i]))
    ensures |r| == 0 || (!IsSpace(r[0]) && !IsSpace(r[|r| - 1]))
  {
    var lead := LeadingSpaces(s);
    var rest := s[lead..];
    var trail := TrailingSpaces(rest);
    assert forall i | lead + |rest| - trail <= i < |s| :: s[i] == rest[i - lead];
    rest[..|rest| - trail]
  }

  /** A string without white space is left as it is. */
  lemma TrimSpaceOfUnspaced(s: string)
    requires forall i | 0 <= i < |s| :: !IsSpace(s[i])
    ensures TrimSpace(s) == s
  {
    assert LeadingSpaces(s) == 0;
  }

  /** Trimming twice trims nothing more. */
  lemma TrimSpaceIdempotent(s: string)
    ensures TrimSpace(TrimSpace(s)) == TrimSpace(s)
  {
    var r := TrimSpace(s);
    assert LeadingSpaces(r) == 0;
    assert TrailingSpaces(r) == 0;
  }

  type byte = x: int | 0 <= x < 0x100

  /** The UTF-8 encoding of one Unicode scalar value. */
  function EncodeRune(c: char): (r: seq<byte>)
    ensures 1 <= |r| <= 4
    ensures |r| == 1 <==> c as int < 0x80
    ensures |r| == 1 ==> r[0] == c as int
    ensures |r| > 1 ==> 0xC0 <= r[0] && forall i | 1 <= i < |r| :: 0x80 <= r[i] < 0xC0
  {
    var n := c as int;
    if n < 0x80 then [n]
    else if n < 0x800 then [0xC0 + n / 0x40, 0x80 + n % 0x40]
    else if n < 0x1_0000 then [0xE0 + n / 0x1000, 0x80 + (n / 0x40) % 0x40, 0x80 + n % 0x40]
    else [0xF0 + n / 0x4_0000, 0x80 + (n / 0x1000) % 0x40, 0x80 + (n / 0x40) % 0x40, 0x80 + n % 0x40]
  }

  /** Reads back the scalar value of one UTF-8 encoded character. */
  function DecodeRune(r: seq<byte>): int
    requires 1 <= |r| <= 4
  {
    var b: seq<int> := r;
    if |b| == 1 then b[0]
    else if |b| == 2 then (b[0] - 0xC0) * 0x40 + (b[1] - 0x80)
    else if |b| == 3 then ((b[0] - 0xE0) * 0x40 + (b[1] - 0x80)) * 0x40 + (b[2] - 0x80)
    else (((b[0] - 0xF0) * 0x40 + (b[1] - 0x80)) * 0x40 + (b[2] - 0x80)) * 0x40 + (b[3] - 0x80)
  }

  /** Decoding undoes the encoding of every character. */
  lemma EncodeRuneRoundTrip(c: char)
    ensures DecodeRune(EncodeRune(c)) == c as int
  {
    var n := c as int;
    if n < 0x80 {
    } else if n < 0x800 {
      assert n == (n / 0x40) * 0x40 + n % 0x40;
    } else if n < 0x1_0000 {
      assert n / 0x40 == (n / 0x1000) * 0x40 + (n / 0x40) % 0x40;
      assert n == (n / 0x40) * 0x40 + n % 0x40;
    } else {
      assert n / 0x1000 == (n / 0x4_0000) * 0x40 + (n / 0x1000) % 0x40;
      assert n / 0x40 == (n / 0x1000) * 0x40 + (n / 0x40) % 0x40;
      assert n == (n / 0x40) * 0x40 + n % 0x40;
    }
  }

  /** The bytes of a Go string holding the characters `s`. */
  function Utf8(s: string): (r: seq<byte>)
    ensures |r| >= |s|
  {
    if |s| == 0 then [] else EncodeRune(s[0]) + Utf8(s[1..])
  }

  predicate IsAscii(s: string)
  {
    forall i | 0 <= i < |s| :: s[i] as int < 0x80
  }

  /** An ASCII string is stored one byte per character. */
  lemma {:induction false} Utf8OfAscii(s: string)
    requires IsAscii(s)
    ensures |Utf8(s)| == |s|
    ensures forall i | 0 <= i < |s| :: Utf8(s)[i] == s[i] as int
  {
    if |s| > 0 {
      assert IsAscii(s[1..]);
      Utf8OfAscii(s[1..]);
    }
  }

  /** A character outside ASCII contributes only bytes at or above 0x80. */
  lemma {:induction false} Utf8HighBytes(s: string, i: int)
    requires 0 <= i < |Utf8(s)| && Utf8(s)[i] < 0x80
    ensures exists j | 0 <= j < |s| :: s[j] as int == Utf8(s)[i]
  {
    var head := EncodeRune(s[0]);
    if i < |head| {
      assert s[0] as int == Utf8(s)[i];
    } else {
      Utf8HighBytes(s[1..], i - |head|);
      var j :| 0 <= j < |s[1..]| && s[1..][j] as int == Utf8(s[1..])[i - |head|];
      assert s[j + 1] as int == Utf8(s)[i];
    }
  }
}
