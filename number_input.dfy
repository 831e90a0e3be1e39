/** The text an `<input type="number">` hands to the page, and `parseFloat` over it.
    A number input's value is either empty or a "valid floating-point number" in the sense of
    the HTML Living Standard (section 2.3.4.3): an optional '-', digits with an optional
    fraction (or a fraction alone), and an optional exponent. On such text `parseFloat`
    returns the number it denotes; `ParseNumber` models exactly that, and gives None on
    anything else. */
module NumberInput {
  import opened Wrappers

  predicate IsDigit(c: char)
  {
    '0' <= c <= '9'
  }

  predicate AllDigits(s: string)
  {
    forall i :: 0 <= i < |s| ==> IsDigit(s[i])
  }

  function DigitValue(c: char): (d: nat)
    requires IsDigit(c)
    ensures d < 10
  {
    c as int - '0' as int
  }

  /** The longest prefix of `s` made of digits. */
  function DigitRun(s: string): (r: string)
    ensures |r| <= |s| && r == s[..|r|]
    ensures AllDigits(r)
    ensures |r| < |s| ==> !IsDigit(s[|r|])
  {
    if s != [] && IsDigit(s[0]) then [s[0]] + DigitRun(s[1..]) else []
  }

  /** The value of a run of decimal digits, most significant first. */
  function NatValue(ds: string): nat
    requires AllDigits(ds)
  {
    if ds == [] then 0 else NatValue(ds[..|ds| - 1]) * 10 + DigitValue(ds[|ds| - 1])
  }

  /** The value of the digits after a decimal point. */
  function FracValue(ds: string): (r: real)
    requires AllDigits(ds)
    ensures 0.0 <= r < 1.0
  {
    if ds == [] then 0.0 else (DigitValue(ds[0]) as real + FracValue(ds[1..])) / 10.0
  }

  function Pow10(n: nat): (r: real)
    ensures r >= 1.0
  {
    if n == 0 then 1.0 else 10.0 * Pow10(n - 1)
  }

  /** `m` times ten to the power `e`. */
  function Scale(m: real, e: int): (r: real)
    ensures m >= 0.0 ==> r >= 0.0
  {
    if e >= 0 then m * Pow10(e) else m / Pow10(-e)
  }

  /** What follows the mantissa: nothing, or 'e'/'E', an optional sign and one or more
      digits, and nothing after them. */
  function ParseExponent(s: string): Option<int>
  {
    if s == [] then Some(0)
    else if s[0] != 'e' && s[0] != 'E' then None
    else
      var neg := |s| > 1 && s[1] == '-';
      var body := if |s| > 1 && (s[1] == '-' || s[1] == '+') then s[2..] else s[1..];
      if body != [] && AllDigits(body) then Some(if neg then -(NatValue(body) as int) else NatValue(body) as int)
      else None
  }

  /** A number without its sign: digits with an optional fraction, or a fraction alone,
      then the exponent part. */
  function ParseUnsigned(body: string): (r: Option<real>)
    ensures r.Some? ==> r.value >= 0.0
  {
    var intPart := DigitRun(body);
    var rest := body[|intPart|..];
    var hasFrac := |rest| >= 2 && rest[0] == '.' && IsDigit(rest[1]);
    var fracPart := if hasFrac then DigitRun(rest[1..]) else [];
    var tail := if hasFrac then rest[1 + |fracPart|..] else rest;
    if intPart == [] && fracPart == [] then None
    else
      match ParseExponent(tail)
      case None => None
      case Some(e) => Some(Scale(NatValue(intPart) as real + FracValue(fracPart), e))
  }

  /** `parseFloat` on the value of a number input. */
  function ParseNumber(s: string): (r: Option<real>)
    ensures s == [] ==> r == None
    ensures r.Some? && r.value < 0.0 ==> s[0] == '-'
  {
    if s != [] && s[0] == '-' then
      match ParseUnsigned(s[1..])
      case None => None
      case Some(m) => Some(-m)
    else ParseUnsigned(s)
  }

  /** The value a number input holds: empty, or text `parseFloat` reads as a number. */
  predicate AmountTextSanitised(s: string)
  {
    s == [] || ParseNumber(s).Some?
  }

  /** Decimal rendering of a natural number, the inverse partner of ParseNumber. */
  function DecimalText(n: nat): (r: string)
    ensures r != [] && AllDigits(r)
  {
    (if n < 10 then [] else DecimalText(n / 10)) + [('0' as int + n % 10) as char]
  }

  lemma {:induction false} NatValueOfDecimalText(n: nat)
    ensures NatValue(DecimalText(n)) == n
  {
    var t := DecimalText(n);
    assert t[..|t| - 1] == (if n < 10 then [] else DecimalText(n / 10));
    if n >= 10 {
      NatValueOfDecimalText(n / 10);
    }
  }

  lemma {:induction false} DigitRunOfDigits(s: string)
    requires AllDigits(s)
    ensures DigitRun(s) == s
  {
    if s != [] {
      DigitRunOfDigits(s[1..]);
    }
  }

  /** A run of digits reads as its own value. */
  lemma ParseDigits(t: string)
    requires t != [] && AllDigits(t)
    ensures ParseUnsigned(t) == Some(NatValue(t) as real)
  {
    DigitRunOfDigits(t);
    assert t[|t|..] == [];
  }

  /** Reading back the decimal text of a natural number gives that number, with or
      without a leading minus sign. */
  lemma ParseDecimalText(n: nat)
    ensures ParseNumber(DecimalText(n)) == Some(n as real)
    ensures ParseNumber("-" + DecimalText(n)) == Some(-(n as real))
  {
    var t := DecimalText(n);
    NatValueOfDecimalText(n);
    ParseDigits(t);
    assert ("-" + t)[1..] == t;
  }
}
