/**
 * The parts of the Java runtime that the client relies on: 64-bit `long`
 * arithmetic with wrap-around, `Long.parseLong` / `Long.toString` in base 10,
 * and the kinds of exception that the client throws or catches.
 */
module JavaLang {
  import opened Wrappers

  const MinLong: int := -0x8000_0000_0000_0000
  const MaxLong: int := 0x7FFF_FFFF_FFFF_FFFF

  /** A Java `long`. */
  type Long = x: int | MinLong <= x <= MaxLong

  predicate IsLong(x: int) { MinLong <= x <= MaxLong }

  /** Two's-complement truncation of a mathematical integer to 64 bits. */
  function Wrap64(x: int): (r: Long)
    ensures IsLong(x) ==> r == x
    ensures (r - x) % 0x1_0000_0000_0000_0000 == 0
  {
    (x - MinLong) % 0x1_0000_0000_0000_0000 + MinLong
  }

  /** The exception classes that matter to the client. */
  datatype Fault =
    | FileNotFound       // java.io.FileNotFoundException
    | MalformedUrl       // java.net.MalformedURLException
    | OtherIO            // any other java.io.IOException
    | NumberFormat       // java.lang.NumberFormatException
    | NullPointer        // java.lang.NullPointerException
    | IllegalArgument    // java.lang.IllegalArgumentException

  /** FileNotFoundException and MalformedURLException both extend IOException. */
  predicate IsIOException(f: Fault) {
    f == FileNotFound || f == MalformedUrl || f == OtherIO
  }

  predicate IsDigit(c: char) { '0' <= c <= '9' }

  predicate AllDigits(s: string) {
    forall i :: 0 <= i < |s| ==> IsDigit(s[i])
  }

  function DigitValue(c: char): (r: nat)
    requires IsDigit(c)
  {
    c as int - '0' as int
  }

  function DigitChar(d: nat): (c: char)
    requires d < 10
    ensures IsDigit(c) && DigitValue(c) == d
  {
    ('0' as int + d) as char
  }

  /** The value of a string of decimal digits, most significant first. */
  function DigitsValue(s: string): (r: nat)
    requires AllDigits(s)
  {
    if |s| == 0 then 0
    else DigitsValue(s[..|s| - 1]) * 10 + DigitValue(s[|s| - 1])
  }

  /** `Long.parseLong(s)`: an optional sign, then one or more decimal digits,
      and a value that fits in a `long`; `None` is a NumberFormatException. */
  function ParseLong(s: string): (r: Option<Long>) {
    if |s| == 0 then None
    else if s[0] == '-' || s[0] == '+' then
      if |s| == 1 || !AllDigits(s[1..]) then None
      else
        var magnitude: int := DigitsValue(s[1..]);
        var v: int := if s[0] == '-' then -magnitude else magnitude;
        if IsLong(v) then Some(v) else None
    else if !AllDigits(s) then None
    else
      var v := DigitsValue(s);
      if IsLong(v) then Some(v) else None
  }

  /** Decimal digits of a natural number, without leading zeros. */
  function NatToDigits(n: nat): (s: string)
    ensures |s| > 0 && AllDigits(s)
  {
    if n < 10 then [DigitChar(n)] else NatToDigits(n / 10) + [DigitChar(n % 10)]
  }

  /** `Long.parseLong("0")` is 0: no other string is needed to spell zero. */
  lemma ParseLongZero()
    ensures ParseLong("0") == Some(0)
  {
  }

  /** `Long.toString(n)`. */
  function LongToString(n: Long): (r: string) {
    if n < 0 then "-" + NatToDigits(-(n as int)) else NatToDigits(n)
  }

  lemma {:induction false} NatToDigitsValue(n: nat)
    ensures DigitsValue(NatToDigits(n)) == n
  {
    var s := NatToDigits(n);
    if n >= 10 {
      NatToDigitsValue(n / 10);
      assert s[..|s| - 1] == NatToDigits(n / 10);
    }
  }

  /** `Long.parseLong` inverts `Long.toString` on every `long`. */
  lemma ParseLongToString(n: Long)
    ensures ParseLong(LongToString(n)) == Some(n)
  {
    var s := LongToString(n);
    if n < 0 {
      NatToDigitsValue(-(n as int));
      assert s[1..] == NatToDigits(-(n as int));
    } else {
      NatToDigitsValue(n);
      assert IsDigit(s[0]);
    }
  }

  /** The only `long` whose decimal form is "0" is zero. */
  lemma LongToStringZero(n: Long)
    ensures LongToString(n) == "0" <==> n == 0
  {
    if LongToString(n) == "0" {
      ParseLongToString(n);
    }
  }
}
