/**
 * The handful of PHP value semantics the photoswipe module relies on:
 * null as an absent value, `empty()` on strings, truthiness of a settings
 * entry, and the decimal text PHP's `.` operator gives an integer.
 */
module PhpValues {

  datatype Option<+T> = None | Some(value: T)

  /** `empty($s)` for a string: only "" and "0" are empty. */
  predicate Empty(s: string) {
    s == "" || s == "0"
  }

  /** `$m[$key]`: null (None) when the key is missing. */
  function Lookup(m: map<string, string>, key: string): Option<string> {
    if key in m then Some(m[key]) else None
  }

  /** `empty($v)` for a value that is either null or a string. */
  predicate EmptyValue(v: Option<string>) {
    v.None? || Empty(v.value)
  }

  /** `$m[$key]` used as a condition: true exactly when it is not `empty`. */
  predicate Truthy(m: map<string, string>, key: string) {
    !EmptyValue(Lookup(m, key))
  }

  predicate IsDigit(c: char) {
    '0' <= c <= '9'
  }

  predicate AllDigits(s: string) {
    forall i :: 0 <= i < |s| ==> IsDigit(s[i])
  }

  function DigitChar(d: nat): (c: char)
    requires d < 10
    ensures IsDigit(c)
  {
    (('0' as int) + d) as char
  }

  function DigitValue(c: char): nat
    requires IsDigit(c)
  {
    (c as int) - ('0' as int)
  }

  /** A decimal numeral: one or more digits, with no leading zero unless it is "0" itself. */
  predicate CanonicalDigits(t: string) {
    |t| > 0 && AllDigits(t) && (|t| > 1 ==> t[0] != '0')
  }

  /** The canonical decimal text of an integer: a numeral, or '-' before a numeral other than "0". */
  predicate CanonicalInt(s: string) {
    CanonicalDigits(s) || (|s| > 1 && s[0] == '-' && CanonicalDigits(s[1..]) && s[1] != '0')
  }

  /** Decimal digits of a natural number, most significant first, without leading zeros. */
  function NatToString(n: nat): (s: string)
    ensures CanonicalDigits(s)
    ensures s[0] == '0' <==> n == 0
    decreases n
  {
    if n < 10 then [DigitChar(n)] else NatToString(n / 10) + [DigitChar(n % 10)]
  }

  /** The string PHP's concatenation operator produces for an integer. */
  function IntToString(n: int): (s: string)
    ensures CanonicalInt(s) && 'x' !in s
    ensures s[0] == '-' <==> n < 0
    ensures n >= 0 <==> AllDigits(s)
  {
    if n < 0 then
      var s := "-" + NatToString(-n);
      assert !IsDigit(s[0]);
      s
    else NatToString(n)
  }

  /** The number a string of decimal digits denotes. */
  function DigitsValue(s: string): nat
    requires AllDigits(s)
  {
    if s == [] then 0 else 10 * DigitsValue(s[..|s| - 1]) + DigitValue(s[|s| - 1])
  }

  /** Reads back an integer written as by IntToString: digits, optionally after a '-'. */
  function ParseInt(s: string): Option<int> {
    if |s| > 1 && s[0] == '-' && AllDigits(s[1..]) then Some(0 - DigitsValue(s[1..]) as int)
    else if |s| > 0 && AllDigits(s) then Some(DigitsValue(s))
    else None
  }

  lemma {:induction false} DigitsValueOfNatToString(n: nat)
    ensures DigitsValue(NatToString(n)) == n
  {
    if n >= 10 {
      DigitsValueOfNatToString(n / 10);
      var s := NatToString(n);
      assert s[..|s| - 1] == NatToString(n / 10);
      assert DigitValue(s[|s| - 1]) == n % 10;
    }
  }

  /** ParseInt is a left inverse of IntToString: the decimal text determines the integer. */
  lemma IntToStringRoundTrip(n: int)
    ensures ParseInt(IntToString(n)) == Some(n)
  {
    var s := IntToString(n);
    if n < 0 {
      assert s[1..] == NatToString(-n);
      DigitsValueOfNatToString(-n);
    } else {
      DigitsValueOfNatToString(n);
    }
  }

  lemma {:induction false} NatToStringOfDigits(t: string)
    requires CanonicalDigits(t)
    ensures NatToString(DigitsValue(t)) == t
  {
    var last := t[|t| - 1];
    assert DigitChar(DigitValue(last)) == last;
    if |t| > 1 {
      var prefix := t[..|t| - 1];
      assert prefix[0] == t[0];
      NatToStringOfDigits(prefix);
      var v := DigitsValue(prefix);
      assert v != 0 by {
        assert NatToString(v)[0] != '0';
      }
      var n := DigitsValue(t);
      assert n == 10 * v + DigitValue(last);
      assert n / 10 == v && n % 10 == DigitValue(last);
      assert t == prefix + [last];
    }
  }

  /**
   * IntToString is the only canonical text for its integer: any canonical
   * decimal text reads as some integer whose IntToString it is.
   */
  lemma CanonicalIntUnique(s: string)
    requires CanonicalInt(s)
    ensures ParseInt(s).Some? && IntToString(ParseInt(s).value) == s
  {
    if CanonicalDigits(s) {
      NatToStringOfDigits(s);
    } else {
      var digits := s[1..];
      NatToStringOfDigits(digits);
      assert DigitsValue(digits) != 0 by {
        assert NatToString(DigitsValue(digits))[0] != '0';
      }
      assert s == "-" + digits;
    }
  }
}
