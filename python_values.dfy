/**
 * The small part of Python's value model that the cart translation relies on:
 * the scalar values a decoded JSON cart can hold, `str(x)` and `int(x)`.
 */
module PythonValues {
  import opened Optional

  /** A JSON scalar as decoded by Python: `None`, an integer or a string. */
  datatype Scalar = Null | Int(i: int) | Text(s: string)

  /** Python truthiness of an optional string (a looked-up header or argument): present and not empty. */
  predicate Truthy(x: Option<string>) {
    x.Some? && x.value != ""
  }

  predicate IsDigit(c: char) { '0' <= c <= '9' }

  predicate AllDigits(s: string) { forall i :: 0 <= i < |s| ==> IsDigit(s[i]) }

  function DigitChar(d: nat): (c: char)
    requires d < 10
    ensures IsDigit(c)
  {
    "0123456789"[d]
  }

  function DigitValue(c: char): (d: nat)
    requires IsDigit(c)
    ensures d < 10 && DigitChar(d) == c
  {
    (c as int - '0' as int) as nat
  }

  /** The decimal numeral `s` denotes, most significant digit first. */
  function DigitsToNat(s: string): (n: nat)
    requires AllDigits(s)
  {
    if s == [] then 0 else DigitsToNat(s[..|s| - 1]) * 10 + DigitValue(s[|s| - 1])
  }

  /** The shortest decimal numeral of `n`. */
  function NatToDigits(n: nat): (s: string)
    ensures s != [] && AllDigits(s)
    ensures |s| > 1 ==> s[0] != '0'
  {
    if n < 10 then [DigitChar(n)] else NatToDigits(n / 10) + [DigitChar(n % 10)]
  }

  /** Python's `str(n)` for an integer. */
  function IntToString(n: int): (s: string)
    ensures s != []
    ensures n >= 0 ==> AllDigits(s)
    ensures n < 0 ==> s[0] == '-' && AllDigits(s[1..])
  {
    if n >= 0 then NatToDigits(n) else "-" + NatToDigits(-n)
  }

  /** Python's `str(x)` on a scalar; note that `str(None)` is the text "None". */
  function ToStr(x: Scalar): (s: string)
    ensures x.Text? ==> s == x.s
    ensures x.Null? ==> s == "None"
  {
    match x
    case Null => "None"
    case Int(n) => IntToString(n)
    case Text(t) => t
  }

  /**
   * Python's `int(x)`: an integer is kept, a string must be an optionally signed
   * decimal numeral, anything else raises (here: None).
   */
  function ToInt(x: Scalar): (r: Option<int>)
    ensures x.Int? ==> r == Some(x.i)
    ensures x.Null? ==> r == None
    ensures x.Text? && x.s == [] ==> r == None
  {
    match x
    case Null => None
    case Int(n) => Some(n)
    case Text(t) => ParseIntText(t)
  }

  /** `int(t)` for a string: an optional sign followed by at least one ASCII digit. */
  function ParseIntText(t: string): (r: Option<int>)
    ensures r.Some? ==> t != []
    ensures t != [] && AllDigits(t) ==> r == Some(DigitsToNat(t))
    ensures |t| > 1 && t[0] == '-' && AllDigits(t[1..]) ==> r == Some(-(DigitsToNat(t[1..]) as int))
  {
    if t == [] then None
    else if t[0] == '-' || t[0] == '+' then
      if |t| > 1 && AllDigits(t[1..]) then
        Some(if t[0] == '-' then -(DigitsToNat(t[1..]) as int) else DigitsToNat(t[1..]) as int)
      else None
    else if AllDigits(t) then Some(DigitsToNat(t))
    else None
  }

  lemma {:induction false} DigitsRoundTrip(n: nat)
    ensures DigitsToNat(NatToDigits(n)) == n
  {
    if n >= 10 {
      var s := NatToDigits(n);
      var a := NatToDigits(n / 10);
      assert s == a + [DigitChar(n % 10)];
      assert s[..|s| - 1] == a;
      DigitsRoundTrip(n / 10);
    }
  }

  /** `int(str(n)) == n`: printing an integer and parsing it back gives it back. */
  lemma StrIntRoundTrip(n: int)
    ensures ToInt(Text(ToStr(Int(n)))) == Some(n)
  {
    if n >= 0 {
      DigitsRoundTrip(n);
    } else {
      var s := IntToString(n);
      assert s[1..] == NatToDigits(-n);
      DigitsRoundTrip(-n);
    }
  }

  /** `int` fails on a string holding a character that is neither a digit nor a leading sign. */
  lemma NonNumericTextFails(t: string, k: nat)
    requires k < |t| && !IsDigit(t[k])
    requires k > 0 || (t[0] != '-' && t[0] != '+')
    ensures ToInt(Text(t)) == None
  {
  }
}
