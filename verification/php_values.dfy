/**
 * The PHP values the analytics resource handles: optional arguments (PHP's
 * `null` default), the scalars passed through to the request, and PHP's
 * conversion of a scalar to a string when it is concatenated with `.`.
 */
module PhpValues {

  /** An optional argument: `None` is an argument left at its `null` default. */
  datatype Option<+T> = None | Some(value: T)

  /** A non-null PHP scalar (Unix times, connection ids, MCC and MNC codes). */
  datatype Value = Int(i: int) | Str(s: string) | Bool(b: bool)

  /** The values PHP treats as false in a condition (`null` is not a Value). */
  predicate Falsy(v: Value) {
    match v
    case Int(i) => i == 0
    case Str(s) => s == "" || s == "0"
    case Bool(b) => !b
  }

  predicate IsDigit(c: char) {
    '0' <= c <= '9'
  }

  function DigitChar(d: nat): (c: char)
    requires d < 10
    ensures IsDigit(c)
  {
    ('0' as int + d) as char
  }

  function DigitOf(c: char): (r: Option<nat>)
    ensures r.Some? <==> IsDigit(c)
    ensures r.Some? ==> r.value < 10 && DigitChar(r.value) == c
  {
    if IsDigit(c) then Some(c as int - '0' as int) else None
  }

  /** The decimal digits of a natural number, without leading zeros. */
  function Digits(n: nat): (s: string)
    ensures |s| >= 1
    ensures forall k :: 0 <= k < |s| ==> IsDigit(s[k])
    ensures s[0] == '0' ==> n == 0 && s == "0"
  {
    if n < 10 then [DigitChar(n)] else Digits(n / 10) + [DigitChar(n % 10)]
  }

  /**
   * The one way PHP writes an integer: digits without leading zeros,
   * after a '-' for a negative number, and never "-0".
   */
  predicate CanonicalDecimal(s: string) {
    if |s| > 0 && s[0] == '-' then
      |s| >= 2 && s[1] != '0' && forall k :: 1 <= k < |s| ==> IsDigit(s[k])
    else
      |s| >= 1 && (s[0] == '0' ==> |s| == 1) && forall k :: 0 <= k < |s| ==> IsDigit(s[k])
  }

  /** PHP's `(string)$n` for an integer: its digits, after a '-' when negative. */
  function DecimalString(n: int): (s: string)
    ensures CanonicalDecimal(s)
    ensures s[0] == '-' <==> n < 0
  {
    if n < 0 then "-" + Digits(-n) else Digits(n)
  }

  /** Reads back a string of decimal digits; anything else is rejected. */
  function ParseDigits(s: string): Option<nat> {
    if |s| == 0 then None
    else
      var last := DigitOf(s[|s| - 1]);
      if last.None? then None
      else if |s| == 1 then last
      else
        match ParseDigits(s[..|s| - 1])
        case None => None
        case Some(high) => Some(10 * high + last.value)
  }

  /** Reads back an optionally signed decimal integer. */
  function ParseInt(s: string): Option<int> {
    if |s| > 0 && s[0] == '-' then
      match ParseDigits(s[1..])
      case None => None
      case Some(n) => Some(-(n as int))
    else
      match ParseDigits(s)
      case None => None
      case Some(n) => Some(n)
  }

  lemma {:induction false} DigitsRoundTrip(n: nat)
    ensures ParseDigits(Digits(n)) == Some(n)
  {
    if n >= 10 {
      var s := Digits(n);
      assert s[..|s| - 1] == Digits(n / 10);
      DigitsRoundTrip(n / 10);
    }
  }

  /** The decimal string of an integer reads back as that integer. */
  lemma DecimalRoundTrip(n: int)
    ensures ParseInt(DecimalString(n)) == Some(n)
  {
    if n < 0 {
      var d := Digits(-n);
      DigitsRoundTrip(-n);
      NegativeParse(d, -n);
    } else {
      DigitsRoundTrip(n);
    }
  }

  lemma NegativeParse(d: string, m: nat)
    requires ParseDigits(d) == Some(m)
    ensures ParseInt("-" + d) == Some(-(m as int))
  {
    assert ("-" + d)[1..] == d;
  }

  /** Distinct integers have distinct decimal strings. */
  lemma DecimalInjective(a: int, b: int)
    requires DecimalString(a) == DecimalString(b)
    ensures a == b
  {
    DecimalRoundTrip(a);
    DecimalRoundTrip(b);
  }

  /** PHP's string conversion of a scalar, as `.` applies it. */
  function ToPhpString(v: Value): (s: string)
    ensures v.Int? ==> CanonicalDecimal(s) && ParseInt(s) == Some(v.i)
    ensures v.Bool? ==> s == (if v.b then "1" else "")
  {
    match v
    case Int(i) => DecimalRoundTrip(i); DecimalString(i)
    case Str(s) => s
    case Bool(b) => if b then "1" else ""
  }

  /** What an optional argument contributes when appended with `.`: `null` gives "". */
  function Suffix(o: Option<Value>): (s: string)
    ensures o.None? ==> s == ""
    ensures o.Some? && o.value.Str? ==> s == o.value.s
  {
    match o
    case None => ""
    case Some(v) => ToPhpString(v)
  }
}
