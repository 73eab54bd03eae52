/**
 * A concrete stand-in for Go's `strconv.ParseFloat`, restricted to decimal
 * natural numbers.  The probe itself is parametric in its number parser;
 * this one only serves to instantiate it on concrete replies.
 */
module Strconv {
  import opened Wrappers

  predicate IsDigit(c: char)
  {
    '0' <= c <= '9'
  }

  predicate AllDigits(s: string)
  {
    forall i :: 0 <= i < |s| ==> IsDigit(s[i])
  }

  /** Value of a string of decimal digits, most significant first. */
  function DigitsValue(s: string): nat
    requires AllDigits(s)
  {
    if s == [] then 0
    else DigitsValue(s[..|s| - 1]) * 10 + (s[|s| - 1] as int - '0' as int)
  }

  /** Parses a non-empty string of decimal digits; anything else is rejected. */
  function ParseDecimal(s: string): (r: Option<nat>)
    ensures r.Some? <==> s != [] && AllDigits(s)
  {
    if s != [] && AllDigits(s) then Some(DigitsValue(s)) else None
  }

  /** Shortest decimal rendering of `n`. */
  function FormatDecimal(n: nat): (s: string)
    ensures s != [] && AllDigits(s)
  {
    var d := ['0' + (n % 10) as char];
    if n < 10 then d else FormatDecimal(n / 10) + d
  }

  /** Parsing the rendering of a number gives the number back. */
  lemma {:induction false} ParseFormat(n: nat)
    ensures ParseDecimal(FormatDecimal(n)) == Some(n)
  {
    var s := FormatDecimal(n);
    var last := '0' + (n % 10) as char;
    assert s[|s| - 1] == last;
    assert last as int - '0' as int == n % 10;
    if n >= 10 {
      ParseFormat(n / 10);
      assert s[..|s| - 1] == FormatDecimal(n / 10);
      assert DigitsValue(s) == DigitsValue(FormatDecimal(n / 10)) * 10 + n % 10;
    } else {
      assert s[..|s| - 1] == [];
      assert DigitsValue(s) == DigitsValue([]) * 10 + n % 10;
    }
  }
}
