/**
  The few Ruby values the two assertion classes receive from their callers,
  and Ruby's `to_s` on them.  `to_s` matters twice in the certificate
  credential: the client id is stored as `client_id.to_s`, and the key-size
  error message interpolates the integer threshold.
 */
module RubyValues {

  datatype Value =
    | Str(s: string)
    | Sym(name: string)
    | Int(i: int)
    | Nil
      /** Any other object, given by the text its own `to_s` returns. */
    | Object(toS: string)

  predicate IsDigit(c: char) {
    '0' <= c <= '9'
  }

  predicate AllDigits(s: string) {
    forall k :: 0 <= k < |s| ==> IsDigit(s[k])
  }

  function DigitChar(d: nat): (c: char)
    requires d < 10
    ensures IsDigit(c) && c as int - '0' as int == d
  {
    ('0' as int + d) as char
  }

  /** `Integer#to_s` on a non-negative integer: its decimal digits. */
  function NatToDecimal(n: nat): (s: string)
    ensures |s| >= 1 && AllDigits(s)
    ensures s[0] == '0' ==> n == 0
    decreases n
  {
    if n < 10 then [DigitChar(n)] else NatToDecimal(n / 10) + [DigitChar(n % 10)]
  }

  /** The number a string of decimal digits denotes: the reference that `NatToDecimal` inverts. */
  function DecimalValue(s: string): nat
    requires AllDigits(s)
  {
    if s == [] then 0 else DecimalValue(s[..|s| - 1]) * 10 + (s[|s| - 1] as int - '0' as int)
  }

  lemma {:induction false} DecimalRoundTrip(n: nat)
    ensures DecimalValue(NatToDecimal(n)) == n
  {
    var s := NatToDecimal(n);
    if n >= 10 {
      DecimalRoundTrip(n / 10);
      assert s[..|s| - 1] == NatToDecimal(n / 10);
    }
  }

  /** `Integer#to_s`: a minus sign before the digits of a negative number. */
  function IntegerToS(i: int): string {
    if i < 0 then "-" + NatToDecimal(-i) else NatToDecimal(i)
  }

  /** The integer a text produced by `IntegerToS` stands for. */
  function IntegerValue(s: string): int
    requires |s| >= 1
    requires s[0] == '-' ==> AllDigits(s[1..])
    requires s[0] != '-' ==> AllDigits(s)
  {
    if s[0] == '-' then -(DecimalValue(s[1..]) as int) else DecimalValue(s)
  }

  /** Rendering an integer loses nothing: the text gives the integer back. */
  lemma {:induction false} IntegerToSRoundTrip(i: int)
    ensures |IntegerToS(i)| >= 1
    ensures IntegerToS(i)[0] == '-' <==> i < 0
    ensures IntegerValue(IntegerToS(i)) == i
  {
    var s := IntegerToS(i);
    if i < 0 {
      assert s[1..] == NatToDecimal(-i);
      DecimalRoundTrip(-i);
    } else {
      DecimalRoundTrip(i);
    }
  }

  /** `to_s` on the values above: strings are themselves, symbols their name, `nil` the empty string. */
  function ToS(v: Value): string {
    match v
    case Str(s) => s
    case Sym(name) => name
    case Int(i) => IntegerToS(i)
    case Nil => ""
    case Object(text) => text
  }
}
