/**
 * Go's decimal conversions on 64-bit platforms: strconv.Atoi (with its fast
 * path for short inputs and its ParseInt slow path), formatting with `%d`,
 * and the wrap-around of the integer conversions `int32(x)` and int64
 * addition.
 */
module GoStrconv {
  import opened GoStrings
  import Core

  const MaxInt64: int := 0x7FFF_FFFF_FFFF_FFFF
  const MinInt64: int := -0x8000_0000_0000_0000
  const MaxUint64: int := 0xFFFF_FFFF_FFFF_FFFF

  type int64 = x: int | MinInt64 <= x <= MaxInt64
  type int32 = x: int | -0x8000_0000 <= x < 0x8000_0000
  type uint64 = x: int | 0 <= x <= MaxUint64

  /** `int32(x)`: keeps the low 32 bits, read as two's complement. */
  function Int32(x: int): (r: int32)
    ensures (r - x) % 0x1_0000_0000 == 0
    ensures -0x8000_0000 <= x < 0x8000_0000 ==> r == x
  {
    (x + 0x8000_0000) % 0x1_0000_0000 - 0x8000_0000
  }

  /** Addition of two int64 values, wrapping around as Go's does. */
  function AddInt64(a: int64, b: int64): int64
  {
    (a + b - MinInt64) % 0x1_0000_0000_0000_0000 + MinInt64
  }

  /** The int64 sum is the exact sum when that fits, and agrees with it modulo 2^64 always. */
  lemma AddInt64Wraps(a: int64, b: int64)
    ensures (AddInt64(a, b) - (a + b)) % 0x1_0000_0000_0000_0000 == 0
    ensures MinInt64 <= a + b <= MaxInt64 ==> AddInt64(a, b) == a + b
  {
  }

  /** The conversion of a uint64 value to int64, as `int64(x)`. */
  function Uint64ToInt64(x: uint64): (r: int64)
    ensures (r - x) % 0x1_0000_0000_0000_0000 == 0
    ensures x <= MaxInt64 ==> r == x
  {
    if x <= MaxInt64 then x else x - 0x1_0000_0000_0000_0000
  }

  predicate IsDigit(b: byte)
  {
    '0' as int <= b <= '9' as int
  }

  /** The number written by a string of decimal digits. */
  function DigitsValue(ds: seq<byte>): (n: nat)
    requires forall i | 0 <= i < |ds| :: IsDigit(ds[i])
  {
    if |ds| == 0 then 0
    else
      assert IsDigit(ds[|ds| - 1]);
      DigitsValue(ds[..|ds| - 1]) * 10 + (ds[|ds| - 1] - '0' as int)
  }

  /** The decimal digits of n, without leading zeros: `fmt.Sprintf("%d", n)` for n >= 0. */
  function Digits(n: nat): (ds: seq<byte>)
    ensures 1 <= |ds|
    ensures forall i | 0 <= i < |ds| :: IsDigit(ds[i])
    ensures DigitsValue(ds) == n
  {
    if n < 10 then ['0' as int + n]
    else
      var ds := Digits(n / 10) + ['0' as int + n % 10];
      assert ds[..|ds| - 1] == Digits(n / 10);
      ds
  }

  /** `fmt.Sprintf("%d", n)` */
  function FormatInt(n: int): (s: string)
    ensures IsAscii(s)
  {
    var ds := Digits(if n < 0 then -n else n);
    (if n < 0 then "-" else "") + AsciiChars(ds)
  }

  function AsciiChars(bs: seq<byte>): (s: string)
    requires forall i | 0 <= i < |bs| :: bs[i] < 0x80
    ensures |s| == |bs| && forall i | 0 <= i < |s| :: s[i] as int == bs[i]
  {
    if |bs| == 0 then [] else [bs[0] as char] + AsciiChars(bs[1..])
  }

  /** The kind of a strconv.NumError. */
  datatype NumError = SyntaxError | RangeError

  /** What strconv.Atoi returns: the number and the error, if any. */
  datatype Parsed = Parsed(value: int, err: Core.Option<NumError>)

  const Syntax := Parsed(0, Core.Some(SyntaxError))

  /**
   * strconv.Atoi on the bytes of a Go string: strings of 1 to 18 bytes take
   * the fast path (an optional sign, then digits that cannot overflow), all
   * others go through ParseInt(s, 10, 0).
   */
  function Atoi(s: string): (p: Parsed)
    ensures MinInt64 <= p.value <= MaxInt64
    ensures p.err == Core.Some(SyntaxError) ==> p.value == 0
  {
    var b := Utf8(s);
    if 0 < |b| < 19 then AtoiFast(b) else ParseInt(b)
  }

  /** The fast path of strconv.Atoi. */
  function AtoiFast(b: seq<byte>): (p: Parsed)
    requires 0 < |b| < 19
    ensures p.err.None? <==> HasDigitsAfterSign(b)
    ensures p.err.Some? ==> p == Syntax
    ensures p.err.None? ==> p.value == SignedValue(b)
    ensures -1_000_000_000_000_000_000 < p.value < 1_000_000_000_000_000_000
  {
    var digits := Unsigned(b);
    if |digits| == 0 then Syntax
    else if !(forall i | 0 <= i < |digits| :: IsDigit(digits[i])) then Syntax
    else
      DigitsValueBound(digits);
      Pow10Monotone(|digits|, 18);
      Pow10Of18();
      Parsed(SignedValue(b), Core.None)
  }

  /** The bytes after an optional leading sign. */
  function Unsigned(b: seq<byte>): (r: seq<byte>)
    ensures |r| <= |b|
  {
    if |b| > 0 && (b[0] == '-' as int || b[0] == '+' as int) then b[1..] else b
  }

  /** An optional sign followed by one or more decimal digits. */
  predicate HasDigitsAfterSign(b: seq<byte>)
  {
    var digits := Unsigned(b);
    |digits| > 0 && forall i | 0 <= i < |digits| :: IsDigit(digits[i])
  }

  /** The signed number written by such a string. */
  function SignedValue(b: seq<byte>): int
    requires HasDigitsAfterSign(b)
  {
    var v: int := DigitsValue(Unsigned(b));
    if b[0] == '-' as int then -v else v
  }

  lemma {:induction false} Pow10Add(a: nat, b: nat)
    ensures Pow10(a + b) == Pow10(a) * Pow10(b)
    decreases a
  {
    if a > 0 {
      Pow10Add(a - 1, b);
    }
  }

  lemma Pow10Of18()
    ensures Pow10(18) == 1_000_000_000_000_000_000
  {
    assert Pow10(3) == 1000;
    Pow10Add(3, 3);
    Pow10Add(6, 6);
    Pow10Add(12, 6);
  }

  lemma {:induction false} Pow10Monotone(a: nat, b: nat)
    requires a <= b
    ensures Pow10(a) <= Pow10(b)
    decreases b
  {
    if a < b {
      Pow10Monotone(a, b - 1);
    }
  }

  lemma {:induction false} DigitsValueBound(ds: seq<byte>)
    requires forall i | 0 <= i < |ds| :: IsDigit(ds[i])
    ensures DigitsValue(ds) < Pow10(|ds|)
  {
    if |ds| > 0 {
      DigitsValueBound(ds[..|ds| - 1]);
    }
  }

  function Pow10(n: nat): (r: nat)
    ensures r >= 1
  {
    if n == 0 then 1 else 10 * Pow10(n - 1)
  }

  /**
   * strconv.ParseInt(s, 10, 64): a sign, then ParseUint of the rest; a
   * magnitude beyond the int64 range is clamped with a range error.
   */
  function ParseInt(b: seq<byte>): (p: Parsed)
    ensures MinInt64 <= p.value <= MaxInt64
    ensures p.err == Core.Some(SyntaxError) ==> p.value == 0
  {
    if |b| == 0 then Syntax
    else
      var neg := b[0] == '-' as int;
      var u := ParseUint(Unsigned(b));
      if u.err == Core.Some(SyntaxError) then Syntax
      else if !neg && u.value > MaxInt64 then Parsed(MaxInt64, Core.Some(RangeError))
      else if neg && u.value > -MinInt64 then Parsed(MinInt64, Core.Some(RangeError))
      else Parsed(if neg then 0 - u.value else u.value, Core.None)
  }

  /** strconv.ParseUint(s, 10, 64) */
  function ParseUint(b: seq<byte>): (p: Parsed)
    ensures 0 <= p.value <= MaxUint64
    ensures p.err == Core.Some(RangeError) ==> p.value == MaxUint64
    ensures p.err == Core.Some(SyntaxError) ==> p.value == 0
  {
    if |b| == 0 then Syntax else ScanDigits(b, 0, 0)
  }

  /**
   * The digit loop of ParseUint from position i with accumulated value n:
   * a non-digit is a syntax error at once, and so is an overflow (reported as
   * a range error) as soon as it happens, even if a non-digit follows.
   */
  function ScanDigits(b: seq<byte>, i: nat, n: nat): (p: Parsed)
    requires i <= |b| && n <= MaxUint64
    ensures 0 <= p.value <= MaxUint64
    ensures p.err == Core.Some(RangeError) ==> p.value == MaxUint64
    ensures p.err == Core.Some(SyntaxError) ==> p.value == 0
    decreases |b| - i
  {
    if i == |b| then Parsed(n, Core.None)
    else if !IsDigit(b[i]) then Syntax
    else if n >= MaxUint64 / 10 + 1 then Parsed(MaxUint64, Core.Some(RangeError))
    else
      var next := n * 10 + (b[i] - '0' as int);
      if next > MaxUint64 then Parsed(MaxUint64, Core.Some(RangeError))
      else ScanDigits(b, i + 1, next)
  }

  /** The value of a digit string grows with each digit appended. */
  lemma {:induction false} DigitsValueOfPrefix(ds: seq<byte>, i: nat)
    requires i <= |ds| && forall k | 0 <= k < |ds| :: IsDigit(ds[k])
    ensures DigitsValue(ds[..i]) <= DigitsValue(ds)
    decreases |ds| - i
  {
    if i < |ds| {
      DigitsValueOfPrefix(ds, i + 1);
      assert ds[..i + 1][..i] == ds[..i];
    } else {
      assert ds[..i] == ds;
    }
  }

  /** Scanning a digit string whose value fits in a uint64 yields that value. */
  lemma {:induction false} ScanDigitsOfFitting(ds: seq<byte>, i: nat)
    requires i <= |ds| && forall k | 0 <= k < |ds| :: IsDigit(ds[k])
    requires DigitsValue(ds) <= MaxUint64 && DigitsValue(ds[..i]) <= MaxUint64
    ensures ScanDigits(ds, i, DigitsValue(ds[..i])) == Parsed(DigitsValue(ds), Core.None)
    decreases |ds| - i
  {
    DigitsValueOfPrefix(ds, i);
    if i == |ds| {
      assert ds[..i] == ds;
    } else {
      DigitsValueOfPrefix(ds, i + 1);
      assert ds[..i + 1][..i] == ds[..i];
      ScanDigitsOfFitting(ds, i + 1);
    }
  }

  /** A scan that ends without error has read only digits, and their value. */
  lemma {:induction false} ScanDigitsSound(b: seq<byte>, i: nat)
    requires i <= |b| && forall k | 0 <= k < i :: IsDigit(b[k])
    requires DigitsValue(b[..i]) <= MaxUint64
    requires ScanDigits(b, i, DigitsValue(b[..i])).err.None?
    ensures forall k | 0 <= k < |b| :: IsDigit(b[k])
    ensures ScanDigits(b, i, DigitsValue(b[..i])).value == DigitsValue(b)
    decreases |b| - i
  {
    if i == |b| {
      assert b[..i] == b;
    } else {
      assert b[..i + 1][..i] == b[..i];
      ScanDigitsSound(b, i + 1);
    }
  }

  /** When Atoi reports no error, the string is a signed decimal and the value is its value. */
  lemma AtoiSound(s: string)
    requires Atoi(s).err.None?
    ensures HasDigitsAfterSign(Utf8(s))
    ensures Atoi(s).value == SignedValue(Utf8(s))
  {
    var b := Utf8(s);
    if !(0 < |b| < 19) {
      assert Atoi(s) == ParseInt(b);
      ParseIntSound(b);
    }
  }

  lemma ParseIntSound(b: seq<byte>)
    requires ParseInt(b).err.None?
    ensures HasDigitsAfterSign(b)
    ensures ParseInt(b).value == SignedValue(b)
  {
    var rest := Unsigned(b);
    var u := ParseUint(rest);
    assert |b| > 0;
    NumErrorCases(u.err);
    assert u.err != Core.Some(SyntaxError);
    assert u.err != Core.Some(RangeError);
    assert |rest| > 0 && u == ScanDigits(rest, 0, 0);
    assert rest[..0] == [];
    assert DigitsValue(rest[..0]) == 0;
    assert ScanDigits(rest, 0, DigitsValue(rest[..0])).err.None?;
    ScanDigitsSound(rest, 0);
  }

  lemma NumErrorCases(e: Core.Option<NumError>)
    ensures e == Core.None || e == Core.Some(SyntaxError) || e == Core.Some(RangeError)
  {
    match e {
      case None =>
      case Some(k) =>
        match k {
          case SyntaxError =>
          case RangeError =>
        }
    }
  }

  /** The bytes `%d` writes: an optional minus sign, then the digits of the magnitude. */
  lemma Utf8OfFormatInt(n: int)
    ensures Utf8(FormatInt(n)) == (if n < 0 then ['-' as int] else []) + Digits(if n < 0 then -n else n)
  {
    var s := FormatInt(n);
    Utf8OfAscii(s);
    var ds := Digits(if n < 0 then -n else n);
    var sign: seq<byte> := if n < 0 then ['-' as int] else [];
    var pre: string := if n < 0 then "-" else "";
    var tail := AsciiChars(ds);
    assert s == pre + tail;
    assert |pre| == |sign| && forall i | 0 <= i < |pre| :: pre[i] as int == sign[i];
    forall i | 0 <= i < |s|
      ensures Utf8(s)[i] == (sign + ds)[i]
    {
      if i >= |pre| {
        assert s[i] == tail[i - |pre|];
      }
    }
  }

  /** Atoi reads back what `%d` writes, for every int64. */
  lemma AtoiFormatInt(n: int64)
    ensures Atoi(FormatInt(n)) == Parsed(n, Core.None)
  {
    var m: nat := if n < 0 then -(n as int) else n;
    var b := Utf8(FormatInt(n));
    Utf8OfFormatInt(n);
    assert Unsigned(b) == Digits(m);
    assert HasDigitsAfterSign(b) && SignedValue(b) == n;
    AtoiOfNumeric(FormatInt(n));
  }

  /**
   * Twenty digits starting with 2 or more overflow a uint64 before anything
   * after them is read: Atoi clamps to the largest int64 with a range error,
   * even when the string goes on with characters that are not digits.
   */
  lemma AtoiOverflowBeforeGarbage(s: string)
    requires IsAscii(s) && |s| >= 20 && s[0] >= '2'
    requires forall j | 0 <= j < 20 :: '0' <= s[j] <= '9'
    ensures Atoi(s) == Parsed(MaxInt64, Core.Some(RangeError))
  {
    Utf8OfAscii(s);
    var b := Utf8(s);
    assert Unsigned(b) == b;
    assert b[..20][0] == s[0] as int;
    DigitsValueAtLeast(b[..20]);
    Pow10Of19();
    assert b[..0] == [];
    assert DigitsValue(b[..0]) == 0;
    ScanDigitsOverflow(b, 0, 20);
  }

  /**
   * On an optionally signed decimal number Atoi returns its value when it
   * fits an int64, and otherwise the nearer int64 bound with a range error.
   */
  lemma AtoiOfNumeric(s: string)
    requires HasDigitsAfterSign(Utf8(s))
    ensures var v := SignedValue(Utf8(s));
      Atoi(s) == (if v > MaxInt64 then Parsed(MaxInt64, Core.Some(RangeError))
                  else if v < MinInt64 then Parsed(MinInt64, Core.Some(RangeError))
                  else Parsed(v, Core.None))
  {
    var b := Utf8(s);
    var d := Unsigned(b);
    var m := DigitsValue(d);
    if |b| >= 19 {
      assert d[..0] == [] && DigitsValue(d[..0]) == 0;
      assert ParseUint(d) == ScanDigits(d, 0, DigitsValue(d[..0]));
      if m <= MaxUint64 {
        ScanDigitsOfFitting(d, 0);
      } else {
        assert d[..|d|] == d;
        ScanDigitsOverflow(d, 0, |d|);
      }
      assert Atoi(s) == ParseInt(b);
    }
  }

  lemma Pow10Of19()
    ensures Pow10(19) == 10_000_000_000_000_000_000
  {
    Pow10Of18();
  }

  /** A digit string is worth at least its leading digit times the power of ten of its place. */
  lemma {:induction false} DigitsValueAtLeast(ds: seq<byte>)
    requires |ds| >= 1 && forall i | 0 <= i < |ds| :: IsDigit(ds[i])
    ensures DigitsValue(ds) >= (ds[0] - '0' as int) * Pow10(|ds| - 1)
  {
    if |ds| > 1 {
      var init := ds[..|ds| - 1];
      assert init[0] == ds[0];
      DigitsValueAtLeast(init);
    }
  }

  /**
   * Once the digits read so far exceed the uint64 range, the scan reports a
   * range error, whatever follows.
   */
  lemma {:induction false} ScanDigitsOverflow(b: seq<byte>, i: nat, k: nat)
    requires i <= k <= |b| && forall j | 0 <= j < k :: IsDigit(b[j])
    requires DigitsValue(b[..i]) <= MaxUint64 < DigitsValue(b[..k])
    ensures ScanDigits(b, i, DigitsValue(b[..i])) == Parsed(MaxUint64, Core.Some(RangeError))
    decreases k - i
  {
    assert b[..i + 1][..i] == b[..i];
    if DigitsValue(b[..i + 1]) <= MaxUint64 {
      ScanDigitsOverflow(b, i + 1, k);
    }
  }

  /** `int32(x)` of the largest int64 is -1. */
  lemma Int32OfMaxInt64()
    ensures Int32(MaxInt64) == -1
  {
  }

  /** `int32(x)` of the smallest int64 is 0. */
  lemma Int32OfMinInt64()
    ensures Int32(MinInt64) == 0
  {
  }
}
