/**
 * Base-10, 64-bit integer parsing as Go's strconv.ParseInt(s, 10, 64) does
 * it, which the backend uses on the `FFZ-Cache` reply header, and the
 * decimal formatting of `%d`, which the error texts use.
 */
module StrConv {

  const MaxUint64: int := 0xFFFF_FFFF_FFFF_FFFF
  const MaxInt64: int := 0x7FFF_FFFF_FFFF_FFFF
  const MinInt64: int := -0x8000_0000_0000_0000

  const TwoTo64: int := 0x1_0000_0000_0000_0000

  /**
   * What Go's int64 arithmetic keeps of the exact result `x`: the value in
   * the int64 range that is congruent to `x` modulo 2^64.
   */
  function WrapInt64(x: int): (r: int)
    ensures MinInt64 <= r <= MaxInt64
    ensures (x - r) % TwoTo64 == 0
    ensures MinInt64 <= x <= MaxInt64 ==> r == x
  {
    var m := x % TwoTo64;
    if m > MaxInt64 then m - TwoTo64 else m
  }

  /** The two kinds of strconv.NumError. */
  datatype NumError = ErrSyntax | ErrRange

  datatype Parsed = Parsed(value: int) | Failed(err: NumError)

  predicate IsDigit(c: char)
  {
    '0' <= c <= '9'
  }

  predicate AllDigits(s: string)
  {
    forall i :: 0 <= i < |s| ==> IsDigit(s[i])
  }

  /** The value of a string of decimal digits, most significant first. */
  function DigitsValue(s: string): nat
    requires AllDigits(s)
  {
    if s == [] then 0
    else DigitsValue(s[..|s| - 1]) * 10 + (s[|s| - 1] as int - '0' as int)
  }

  /** Length of the run of digits `s` starts with. */
  function DigitRun(s: string): (n: nat)
    ensures n <= |s| && AllDigits(s[..n])
    ensures n < |s| ==> !IsDigit(s[n])
  {
    if s != [] && IsDigit(s[0]) then
      var n := DigitRun(s[1..]);
      assert s[..n + 1] == [s[0]] + s[1..][..n];
      n + 1
    else
      0
  }

  lemma DigitRunOfDigits(s: string)
    ensures AllDigits(s) ==> DigitRun(s) == |s| && s[..DigitRun(s)] == s
  {
  }

  /**
   * strconv.ParseUint(s, 10, 64).  Go scans left to right and stops at the
   * first character that is not a digit (a syntax error) or at the first
   * digit that takes the value past 2^64-1 (a range error), whichever
   * comes first; the value of the digit prefix only grows, so the range
   * error wins exactly when the digits before the first non-digit are
   * already too large.
   */
  function ParseUint64(s: string): Parsed
  {
    if s == "" then Failed(ErrSyntax)
    else
      var n := DigitRun(s);
      if DigitsValue(s[..n]) > MaxUint64 then Failed(ErrRange)
      else if n < |s| then Failed(ErrSyntax)
      else Parsed(DigitsValue(s))
  }

  /** An optional sign followed by one or more decimal digits. */
  predicate WellFormed(s: string)
  {
    && s != []
    && var body := Unsigned(s);
       body != [] && AllDigits(body)
  }

  /** `s` without its leading sign, if it has one. */
  function Unsigned(s: string): string
  {
    if s != [] && (s[0] == '+' || s[0] == '-') then s[1..] else s
  }

  /** The value a well-formed decimal denotes. */
  function Value(s: string): int
    requires WellFormed(s)
  {
    var u: int := DigitsValue(Unsigned(s));
    if s[0] == '-' then -u else u
  }

  /**
   * strconv.ParseInt(s, 10, 64): it accepts exactly the well-formed
   * decimals whose value fits in 64 signed bits, and returns that value.
   */
  function ParseInt64(s: string): (r: Parsed)
    ensures r.Parsed? <==> WellFormed(s) && MinInt64 <= Value(s) <= MaxInt64
    ensures r.Parsed? ==> r.value == Value(s)
  {
    if s == "" then Failed(ErrSyntax)
    else
      var neg := s[0] == '-';
      DigitRunOfDigits(Unsigned(s));
      match ParseUint64(Unsigned(s))
      case Failed(e) => Failed(e)
      case Parsed(u) =>
        if !neg && u > MaxInt64 then Failed(ErrRange)
        else if neg && u > MaxInt64 + 1 then Failed(ErrRange)
        else Parsed(if neg then -u else u)
  }

  /** The decimal digit for 0 <= d < 10. */
  function Digit(d: nat): char
    requires d < 10
  {
    ('0' as int + d) as char
  }

  /** The decimal text of a natural number, without leading zeros. */
  function FormatNat(n: nat): (s: string)
    ensures s != [] && AllDigits(s)
  {
    if n < 10 then [Digit(n)] else FormatNat(n / 10) + [Digit(n % 10)]
  }

  /** `%d` of an integer (strconv.Itoa). */
  function FormatInt(n: int): string
  {
    if n < 0 then "-" + FormatNat(-n) else FormatNat(n)
  }

  lemma {:induction false} DigitsValueFormatNat(n: nat)
    ensures DigitsValue(FormatNat(n)) == n
  {
    var s := FormatNat(n);
    if n >= 10 {
      DigitsValueFormatNat(n / 10);
      assert s[..|s| - 1] == FormatNat(n / 10);
    }
  }

  lemma WellFormedFormatInt(n: int)
    ensures WellFormed(FormatInt(n)) && Value(FormatInt(n)) == n
  {
    var s := FormatInt(n);
    if n < 0 {
      assert Unsigned(s) == FormatNat(-n);
      DigitsValueFormatNat(-n);
    } else {
      assert FormatNat(n)[0] != '+' && FormatNat(n)[0] != '-';
      DigitsValueFormatNat(n);
    }
  }

  /** ParseInt64 reads back what FormatInt writes, for every 64-bit value. */
  lemma ParseFormat(n: int)
    requires MinInt64 <= n <= MaxInt64
    ensures ParseInt64(FormatInt(n)) == Parsed(n)
  {
    WellFormedFormatInt(n);
  }

  /** FormatInt never writes the same text for two different numbers. */
  lemma FormatIntInjective(a: int, b: int)
    requires FormatInt(a) == FormatInt(b)
    ensures a == b
  {
    WellFormedFormatInt(a);
    WellFormedFormatInt(b);
  }

  /** FormatInt writes no separator characters, only a sign and digits. */
  lemma FormatIntChars(n: int, c: char)
    requires c in FormatInt(n)
    ensures c == '-' || IsDigit(c)
  {
    var s := FormatInt(n);
    if n < 0 {
      assert s == "-" + FormatNat(-n);
    }
  }
}
