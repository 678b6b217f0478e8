/**
 * The parts of Go's strconv package that the decoders and the request
 * builders use: base-10 integer parsing into a 64-bit int (ParseInt with
 * bitSize 64, and Atoi on a 64-bit platform), ParseBool, Itoa and FormatBool.
 */
module Strconv {
  import opened Wrappers

  const MinInt64: int := -0x8000_0000_0000_0000
  const MaxInt64: int := 0x7fff_ffff_ffff_ffff

  /** Go's int64, and Go's int on a 64-bit platform. */
  type Int64 = x: int | MinInt64 <= x <= MaxInt64

  /** strconv.NumError: the function that failed and the input it rejected. */
  datatype NumError = NumError(func: string, num: string)

  predicate IsDigit(c: char) { '0' <= c <= '9' }

  predicate AllDigits(s: string) { forall i :: 0 <= i < |s| ==> IsDigit(s[i]) }

  function DigitValue(c: char): nat
    requires IsDigit(c)
  {
    (c as int) - ('0' as int)
  }

  function DigitChar(d: nat): (c: char)
    requires d < 10
    ensures IsDigit(c) && DigitValue(c) == d
  {
    ('0' as int + d) as char
  }

  /** The value of a string of decimal digits, most significant first. */
  function DigitsValue(s: string): nat
    requires AllDigits(s)
  {
    if s == [] then 0 else DigitsValue(s[..|s| - 1]) * 10 + DigitValue(s[|s| - 1])
  }

  /** The digits after an optional leading sign. */
  function Unsigned(s: string): string
  {
    if s != [] && (s[0] == '+' || s[0] == '-') then s[1..] else s
  }

  /** The value of an optionally signed digit string. */
  function SignedValue(s: string): int
    requires Unsigned(s) != [] && AllDigits(Unsigned(s))
  {
    var v: int := DigitsValue(Unsigned(s));
    if s[0] == '-' then -v else v
  }

  /**
   * ParseInt(s, 10, 64) and Atoi(s) (func names the caller): an optional
   * '+' or '-', then one or more decimal digits, and the value must fit in
   * 64 bits; anything else is a NumError carrying the whole input.
   */
  function ParseInt(s: string, func: string): (r: Result<Int64, NumError>)
    ensures r.Failure? ==> r.error == NumError(func, s)
    ensures r.Success? ==> Unsigned(s) != [] && AllDigits(Unsigned(s))
    ensures r.Success? ==> r.value == SignedValue(s)
  {
    var digits := Unsigned(s);
    if digits == [] || !AllDigits(digits) then Failure(NumError(func, s))
    else
      var n := SignedValue(s);
      if MinInt64 <= n <= MaxInt64 then Success(n) else Failure(NumError(func, s))
  }

  /** The decimal digits of a natural number, with no leading zeros. */
  function NatToString(n: nat): (s: string)
    ensures s != [] && AllDigits(s)
  {
    if n < 10 then [DigitChar(n)] else NatToString(n / 10) + [DigitChar(n % 10)]
  }

  /** strconv.Itoa: the decimal rendering of i, with '-' for a negative i. */
  function Itoa(i: int): string
  {
    if i < 0 then "-" + NatToString(-i) else NatToString(i)
  }

  lemma {:induction false} NatToStringValue(n: nat)
    ensures DigitsValue(NatToString(n)) == n
  {
    if n >= 10 {
      var s := NatToString(n / 10) + [DigitChar(n % 10)];
      assert s[..|s| - 1] == NatToString(n / 10);
      NatToStringValue(n / 10);
    }
  }

  /** Parsing the decimal rendering of any 64-bit integer gives it back. */
  lemma ParseItoa(i: Int64, func: string)
    ensures ParseInt(Itoa(i), func) == Success(i)
  {
    var s := Itoa(i);
    if i < 0 {
      var d := NatToString(-(i as int));
      assert s == "-" + d && s[0] == '-' && s[1..] == d;
      assert Unsigned(s) == d;
      NatToStringValue(-(i as int));
      assert SignedValue(s) == i;
    } else {
      var d := NatToString(i);
      assert s == d && IsDigit(d[0]);
      assert Unsigned(s) == d;
      NatToStringValue(i);
      assert SignedValue(s) == i;
    }
  }

  /** strconv.ParseBool: the six spellings of each truth value. */
  function ParseBool(s: string): (r: Result<bool, NumError>)
    ensures r.Failure? ==> r.error == NumError("ParseBool", s)
  {
    if s in {"1", "t", "T", "TRUE", "true", "True"} then Success(true)
    else if s in {"0", "f", "F", "FALSE", "false", "False"} then Success(false)
    else Failure(NumError("ParseBool", s))
  }

  /** strconv.FormatBool. */
  function FormatBool(b: bool): string
  {
    if b then "true" else "false"
  }

  lemma ParseFormatBool(b: bool)
    ensures ParseBool(FormatBool(b)) == Success(b)
  {
  }
}
