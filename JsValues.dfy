/**
 * The JavaScript values that the relay's handlers read out of socket and HTTP
 * payloads, with the two JavaScript operations the handlers apply to them:
 * truthiness (`!v`, `v || d`) and conversion to a string (the template
 * literal that builds a room name, `Date.now().toString()`).
 */
module JsValues {

  /** A primitive JavaScript value. An absent property reads as `Undefined`.
      Numbers are modelled as integers. */
  datatype JsValue = Undefined | Null | Bool(b: bool) | Num(n: int) | Str(s: string)

  /** JavaScript truthiness: `!v` holds exactly when `Truthy(v)` does not. */
  predicate Truthy(v: JsValue)
    ensures Truthy(v) <==> v !in {Undefined, Null, Bool(false), Num(0), Str("")}
  {
    match v
    case Undefined => false
    case Null => false
    case Bool(b) => b
    case Num(n) => n != 0
    case Str(s) => s != ""
  }

  /** `v || d`: the value itself when truthy, otherwise the fallback. */
  function Or(v: JsValue, d: JsValue): (r: JsValue)
    ensures Truthy(d) ==> Truthy(r)
    ensures r == v || r == d
    ensures Truthy(v) <==> r == v && Truthy(r)
    ensures !Truthy(v) ==> r == d
  {
    if Truthy(v) then v else d
  }

  predicate IsDigit(c: char) {
    '0' <= c <= '9'
  }

  predicate AllDigits(s: string) {
    forall i :: 0 <= i < |s| ==> IsDigit(s[i])
  }

  function DigitChar(d: int): (c: char)
    requires 0 <= d < 10
    ensures IsDigit(c)
  {
    (('0' as int) + d) as char
  }

  function DigitValue(c: char): (d: nat)
    requires IsDigit(c)
    ensures d < 10 && DigitChar(d) == c
  {
    (c as int) - ('0' as int)
  }

  /** The decimal numeral of a natural number, without leading zeros. */
  function Decimal(n: nat): (s: string)
    ensures |s| > 0 && AllDigits(s)
    ensures s[0] == '0' <==> n == 0
    decreases n
  {
    if n < 10 then [DigitChar(n)] else Decimal(n / 10) + [DigitChar(n % 10)]
  }

  /** The value a string of decimal digits denotes; the partner of `Decimal`. */
  function ParseDecimal(s: string): (n: nat)
    requires AllDigits(s)
    decreases |s|
  {
    if s == [] then 0 else ParseDecimal(s[..|s| - 1]) * 10 + DigitValue(s[|s| - 1])
  }

  lemma {:induction false} ParseDecimalOfDecimal(n: nat)
    ensures ParseDecimal(Decimal(n)) == n
    decreases n
  {
    if n >= 10 {
      var s := Decimal(n);
      assert s[..|s| - 1] == Decimal(n / 10);
      ParseDecimalOfDecimal(n / 10);
    }
  }

  lemma DecimalInjective(m: nat, n: nat)
    ensures Decimal(m) == Decimal(n) ==> m == n
  {
    ParseDecimalOfDecimal(m);
    ParseDecimalOfDecimal(n);
  }

  /** `String(n)` for an integer number in JavaScript's plain notation. */
  function NumberToString(n: int): (s: string)
    ensures |s| > 0
    ensures s[0] == '-' <==> n < 0
  {
    if n < 0 then "-" + Decimal(-n) else Decimal(n)
  }

  lemma NumberToStringInjective(m: int, n: int)
    ensures NumberToString(m) == NumberToString(n) ==> m == n
  {
    if NumberToString(m) == NumberToString(n) {
      if m < 0 {
        assert NumberToString(m)[1..] == Decimal(-m);
        assert NumberToString(n)[1..] == Decimal(-n);
        DecimalInjective(-m, -n);
      } else {
        DecimalInjective(m, n);
      }
    }
  }

  /** `String(v)`, as a template literal `${v}` converts a primitive. */
  function ToJsString(v: JsValue): (s: string)
    ensures v.Str? ==> s == v.s
  {
    match v
    case Undefined => "undefined"
    case Null => "null"
    case Bool(b) => if b then "true" else "false"
    case Num(n) => NumberToString(n)
    case Str(s) => s
  }
}
