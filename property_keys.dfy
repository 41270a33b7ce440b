// Property keys: `obj[v] = ...` converts `v` to a string before it indexes
// the object. The primitive adders of the container index the registry with
// the validated VALUE, so this conversion decides under which key they store.

module PropertyKeys {
  import opened JsValues

  predicate IsDigit(c: char)
  {
    '0' <= c <= '9'
  }

  predicate AllDigits(s: string)
  {
    forall k :: 0 <= k < |s| ==> IsDigit(s[k])
  }

  function DigitChar(d: nat): (c: char)
    requires d < 10
    ensures IsDigit(c) && (c as int) - ('0' as int) == d
  {
    (('0' as int) + d) as char
  }

  /** Decimal digits of a natural number, most significant first, without
      leading zeros (`String(n)` for integers below 10^21). */
  function NatToDecimal(n: nat): (s: string)
    ensures |s| > 0 && AllDigits(s)
    ensures n > 0 ==> s[0] != '0'
    decreases n
  {
    if n < 10 then [DigitChar(n)] else NatToDecimal(n / 10) + [DigitChar(n % 10)]
  }

  /** The value of a string of decimal digits: the inverse of NatToDecimal. */
  function ParseDecimal(s: string): nat
    requires AllDigits(s)
    decreases |s|
  {
    if s == [] then 0
    else ParseDecimal(s[..|s| - 1]) * 10 + ((s[|s| - 1] as int) - ('0' as int))
  }

  lemma {:induction false} ParseNatToDecimal(n: nat)
    ensures ParseDecimal(NatToDecimal(n)) == n
    decreases n
  {
    if n >= 10 {
      var s := NatToDecimal(n);
      assert s[..|s| - 1] == NatToDecimal(n / 10);
      ParseNatToDecimal(n / 10);
    }
  }

  /** `String(i)` for an integer (plain decimal, leading '-' when negative). */
  function IntToDecimal(i: int): (s: string)
  {
    if i < 0 then "-" + NatToDecimal(-i) else NatToDecimal(i)
  }

  /** Distinct integers convert to distinct keys. */
  lemma IntToDecimalInjective(i: int, j: int)
    requires IntToDecimal(i) == IntToDecimal(j)
    ensures i == j
  {
    var s := IntToDecimal(i);
    if i < 0 {
      assert s[0] == '-';
      assert j < 0;
      assert NatToDecimal(-i) == s[1..] == NatToDecimal(-j);
      ParseNatToDecimal(-i);
      ParseNatToDecimal(-j);
    } else {
      assert j >= 0;
      ParseNatToDecimal(i);
      ParseNatToDecimal(j);
    }
  }

  predicate IsIntegral(r: real)
  {
    r == r.Floor as real
  }

  /** The values the primitive adders can get past their validators. */
  predicate Keyable(v: Value)
  {
    v.Str? || v.Bool? || v.Null? || (v.Num? && IsIntegral(v.n))
  }

  /** The string a validated value becomes when it is used as a property key. */
  function KeyOf(v: Value): (k: string)
    requires Keyable(v)
    ensures v.Str? ==> k == v.s
    ensures v.Bool? ==> k == (if v.b then "true" else "false")
    ensures v.Null? ==> k == "null"
    ensures v.Num? ==> k == IntToDecimal(v.n.Floor)
  {
    match v
    case Str(s) => s
    case Bool(b) => if b then "true" else "false"
    case Null => "null"
    case Num(n) => IntToDecimal(n.Floor)
  }

  /** Two integral numbers share a key only if they are equal. */
  lemma KeyOfNumbersInjective(x: real, y: real)
    requires IsIntegral(x) && IsIntegral(y)
    requires KeyOf(Num(x)) == KeyOf(Num(y))
    ensures x == y
  {
    IntToDecimalInjective(x.Floor, y.Floor);
  }

  /** A number and its decimal string collide: `addNumber(_, 5)` and
      `addString(_, "5")` write the same registry key. */
  lemma NumberAndStringKeysCollide()
    ensures KeyOf(Num(5.0)) == KeyOf(Str("5"))
  {
  }
}
