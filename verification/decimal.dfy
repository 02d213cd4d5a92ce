/** Decimal text of unsigned integers, as Rust's `format!("{}", n)` and
    `n.to_string()` render them: digits only, no sign, no leading zeros. */
module Decimal {
  import opened Base

  predicate IsDigit(c: char) {
    '0' <= c <= '9'
  }

  predicate AllDigits(s: string) {
    forall i :: 0 <= i < |s| ==> IsDigit(s[i])
  }

  /** The shape of a rendered number: non-empty, digits only, and no
      leading zero unless the number is zero itself. */
  predicate IsCanonical(s: string) {
    |s| >= 1 && AllDigits(s) && (|s| > 1 ==> s[0] != '0')
  }

  function DigitChar(d: nat): char
    requires d < 10
  {
    ('0' as int + d) as char
  }

  function DigitValue(c: char): nat
    requires IsDigit(c)
  {
    c as int - '0' as int
  }

  /** The decimal rendering of `n`, most significant digit first. */
  function ToDecimal(n: nat): (s: string)
    ensures IsCanonical(s)
    decreases n
  {
    if n < 10 then [DigitChar(n)] else ToDecimal(n / 10) + [DigitChar(n % 10)]
  }

  /** The number a string of digits denotes (leading zeros allowed). */
  function ValueOf(s: string): nat
    requires AllDigits(s)
    decreases |s|
  {
    if s == [] then 0 else ValueOf(s[..|s| - 1]) * 10 + DigitValue(s[|s| - 1])
  }

  /** Reads back exactly the strings `ToDecimal` produces. */
  function ParseDecimal(s: string): Option<nat> {
    if IsCanonical(s) then Some(ValueOf(s)) else None
  }

  lemma {:induction false} ValueOfToDecimal(n: nat)
    ensures ValueOf(ToDecimal(n)) == n
    decreases n
  {
    if n >= 10 {
      var s := ToDecimal(n);
      assert s[..|s| - 1] == ToDecimal(n / 10);
      ValueOfToDecimal(n / 10);
    }
  }

  /** Formatting then parsing gives the number back. */
  lemma ParseToDecimal(n: nat)
    ensures ParseDecimal(ToDecimal(n)) == Some(n)
  {
    ValueOfToDecimal(n);
  }

  /** Every canonical digit string is the rendering of the number it denotes. */
  lemma {:induction false} ToDecimalValueOf(s: string)
    requires IsCanonical(s)
    ensures ToDecimal(ValueOf(s)) == s
    decreases |s|
  {
    if |s| > 1 {
      var pre := s[..|s| - 1];
      assert pre[0] == s[0];
      ToDecimalValueOf(pre);
      var v := ValueOf(pre);
      assert v != 0;
      var n := ValueOf(s);
      assert n / 10 == v && n % 10 == DigitValue(s[|s| - 1]);
      assert s == pre + [s[|s| - 1]];
    }
  }

  /** Parsing and formatting are inverse: a string parses to `n` exactly
      when it is the rendering of `n`. */
  lemma ParseDecimalIff(s: string, n: nat)
    ensures ParseDecimal(s) == Some(n) <==> s == ToDecimal(n)
  {
    if ParseDecimal(s) == Some(n) {
      ToDecimalValueOf(s);
    }
    if s == ToDecimal(n) {
      ParseToDecimal(n);
    }
  }

  /** Distinct numbers have distinct renderings. */
  lemma ToDecimalInjective(m: nat, n: nat)
    ensures ToDecimal(m) == ToDecimal(n) ==> m == n
  {
    ValueOfToDecimal(m);
    ValueOfToDecimal(n);
  }

  /** An alternative rendering of `n` that produces the digits least
      significant first, each prepended to the buffer; it agrees with
      `ToDecimal` on every input. */
  method FormatDecimal(n: nat) returns (s: string)
    ensures s == ToDecimal(n)
  {
    var m := n;
    var acc: string := [];
    while m >= 10
      invariant ToDecimal(m) + acc == ToDecimal(n)
      decreases m
    {
      acc := [DigitChar(m % 10)] + acc;
      m := m / 10;
    }
    s := [DigitChar(m)] + acc;
  }
}
